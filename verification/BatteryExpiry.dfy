/**
 * What clients of the pool manager conclude from its answers: an expiry it reported is never later than
 * its own, and a MicroVM whose deletion it reported has no Lease and never will.
 */
module BatteryExpiry {
  import opened BatteryTypes
  import opened BatterySections
  import opened BatteryInvariant
  import opened BatteryRuns
  import opened BatteryHistory
  import opened BatteryTheorems
  import opened BatteryFields
  import opened BatteryShape
  import opened BatteryOrder

  /** The event says that a MicroVM which may have been leased was deleted. */
  predicate ReportsDeletion(e: Event) {
    e.vm != "" && (e.typ == VmDeletedDueToExpiry || e.typ == VmDeletedOnRelease || e.typ == VmDeletedOnPoolDelete)
  }

  /** A deletion of the MicroVM is in the log. */
  ghost predicate Reported(log: seq<Event>, u: string) {
    exists i :: 0 <= i < |log| && ReportsDeletion(log[i]) && log[i].vm == u
  }

  lemma ReportedOn(a: seq<Event>, b: seq<Event>, u: string)
    requires a <= b
    ensures Reported(a, u) ==> Reported(b, u)
  {
    if Reported(a, u) {
      var i :| 0 <= i < |a| && ReportsDeletion(a[i]) && a[i].vm == u;
      assert b[i] == a[i];
    }
  }


  /** No Lease on the MicroVM is held, and none can be granted: it is untracked, or its Pool is gone. */
  ghost predicate Gone(s: State, u: string) {
    && u in s.uids
    && (u !in s.byUid || (s.byUid[u] in s.vms && s.vms[s.byUid[u]].pool !in s.pools))
    && (forall l | l in s.ledger && s.ledger[l].lease.vm == u :: s.ledger[l].cause.Some?)
  }

  ghost predicate ReportsOk(s: State) {
    forall i | 0 <= i < |s.log| && ReportsDeletion(s.log[i]) :: Gone(s, s.log[i].vm)
  }

  /** No Lease runs longer than its Pool's threshold from now. */
  ghost predicate Timely(s: State) {
    forall l | l in s.leases && s.leases[l].pool in s.pools ::
      s.leases[l].expiresAt <= s.now + s.pools[s.leases[l].pool].spec.threshold
  }

  /** No deleted Pool has a longer threshold than the Pool that has its key now. */
  ghost predicate Thresholds(pools: map<PoolKey, Pool>, gone: map<nat, Pool>) {
    forall r | r in gone && gone[r].key in pools :: gone[r].spec.threshold <= pools[gone[r].key].spec.threshold
  }

  ghost predicate Timed(s: State) {
    Timely(s) && Thresholds(s.pools, s.gone)
  }

  /** The last expiry of a Lease only moves on. */
  ghost predicate Extends(a: map<string, Entry>, b: map<string, Entry>) {
    forall l | l in a :: l in b && a[l].lease.expiresAt <= b[l].lease.expiresAt
  }

  /** No section makes the threshold of a Pool shorter than it is, or than it was in a deleted Pool of the key. */
  ghost predicate Steady(s: State, step: Step) {
    match step
    case UpdatePool(key, spec) => key in s.pools ==> s.pools[key].spec.threshold <= spec.threshold
    case CreatePool(key, spec) => key !in s.pools ==> forall r | r in s.gone && s.gone[r].key == key :: s.gone[r].spec.threshold <= spec.threshold
    case _ => true
  }

  ghost predicate Honest(s: State, clean: bool, steady: bool) {
    (clean ==> ReportsOk(s)) && (steady ==> Timed(s))
  }

  ghost predicate Kept(s: State, t: State, clean: bool, steady: bool) {
    Honest(t, clean, steady) && (steady ==> Extends(s.ledger, t.ledger))
  }

  // ----- Steps that touch no Lease -----

  ghost predicate NoReports(a: seq<Event>, b: seq<Event>) {
    a <= b && forall i | |a| <= i < |b| :: !ReportsDeletion(b[i])
  }

  /** Leases, uids and Pools stay, tracked MicroVMs with a uid stay in their Pools, and no deletion is reported. */
  ghost predicate Quiet(s: State, t: State) {
    && t.leases == s.leases && t.ledger == s.ledger && t.byUid == s.byUid && s.uids <= t.uids && s.now <= t.now
    && PoolsLike(s.pools, t.pools) && GoneLike(s.gone, t.gone)
    && NoReports(s.log, t.log)
    && forall u | u in s.byUid && s.byUid[u] in s.vms ::
         s.byUid[u] in t.vms && t.vms[s.byUid[u]].pool == s.vms[s.byUid[u]].pool
  }

  lemma QuietTimed(s: State, t: State)
    requires Timed(s) && Quiet(s, t)
    ensures Timed(t) && Extends(s.ledger, t.ledger)
  {
  }

  lemma QuietReports(s: State, t: State)
    requires ReportsOk(s) && Quiet(s, t)
    ensures ReportsOk(t)
  {
    forall i | 0 <= i < |t.log| && ReportsDeletion(t.log[i]) ensures Gone(t, t.log[i].vm) {
      assert t.log[i] == s.log[i];
      assert Gone(s, s.log[i].vm);
    }
  }

  lemma QuietKeeps(s: State, t: State, clean: bool, steady: bool)
    requires Honest(s, clean, steady) && Quiet(s, t)
    ensures Kept(s, t, clean, steady)
  {
    hide Quiet, Timed, ReportsOk, Extends;
    if clean {
      QuietReports(s, t);
    }
    if steady {
      QuietTimed(s, t);
    }
  }

  lemma Unreported(a: seq<Event>, b: seq<Event>, vm: string, typ: EventType)
    requires Logged(a, b, vm, typ) && typ != VmDeletedDueToExpiry && typ != VmDeletedOnRelease && typ != VmDeletedOnPoolDelete
    ensures NoReports(a, b)
  {
  }

  lemma EditQuiet(s: State, t: State)
    requires t.leases == s.leases && t.ledger == s.ledger && t.byUid == s.byUid && s.uids <= t.uids && s.now <= t.now
    requires PoolsLike(s.pools, t.pools) && GoneLike(s.gone, t.gone) && NoReports(s.log, t.log)
    requires forall v | v in s.vms :: v in t.vms && t.vms[v].pool == s.vms[v].pool
    ensures Quiet(s, t)
  {
  }

  /** Only MicroVMs, calls, answers and Hosts change, and the MicroVMs stay in their Pools. */
  lemma SilentQuiet(s: State, t: State)
    requires t == s.(vms := t.vms, calls := t.calls, nextTask := t.nextTask, answers := t.answers, hosts := t.hosts, now := t.now,
                     running := t.running)
    requires s.now <= t.now && forall v | v in s.vms :: v in t.vms && t.vms[v].pool == s.vms[v].pool
    ensures Quiet(s, t)
  {
  }

  lemma SelectQuiet(s: State, c: CallId, key: PoolKey, request: string, prior: Option<string>, vm: Option<nat>)
    requires MaySelect(s, c, key, request, prior, vm)
    ensures Quiet(s, SelectS(s, c, key, request, prior, vm))
  {
    hide Quiet, SelectS, Early, IsPrior, IsOldest;
    if Early(s, key, request, prior, vm).Some? {
      EarlyFields(s, c, key, request, prior, vm);
    } else {
      TakeFields(s, c, key, request, prior, vm);
    }
    SilentQuiet(s, SelectS(s, c, key, request, prior, vm));
  }

  lemma CommitQuiet(s: State, c: CallId, prior: Option<string>, l: string)
    requires MayCommit(s, c, prior, l) && (prior.Some? || !Alive(s, s.calls[c].vm))
    ensures Quiet(s, CommitS(s, c, prior, l))
  {
    hide Quiet, GrantS, YieldS, IsPrior, ProvisionN, FreshLease;
    if Alive(s, s.calls[c].vm) {
      YieldFields(s, c, prior.value);
    }
    SilentQuiet(s, CommitS(s, c, prior, l));
  }

  lemma ClaimFailQuiet(s: State, c: CallId)
    requires c in s.calls && s.calls[c].Claiming?
    ensures Quiet(s, ClaimFailS(s, c))
  {
    hide Quiet, ClaimFailS, Logged, NoReports;
    ClaimFailFields(s, c);
    var v := s.calls[c].vm;
    Unlogged(s.log);
    if Alive(s, v) {
      Unreported(s.log, ClaimFailS(s, c).log, s.vms[v].uid, VmHookFailed);
    }
    EditQuiet(s, ClaimFailS(s, c));
  }

  lemma Unlogged(log: seq<Event>)
    ensures NoReports(log, log)
  {
  }

  lemma ReleaseQuiet(s: State, c: CallId, l: string)
    requires Inv(s)
    ensures Quiet(s, ReleaseS(s, c, l))
  {
    hide Inv, Quiet, ReleaseS, Logged, NoReports;
    Unlogged(s.log);
    var t := ReleaseS(s, c, l);
    if l in s.leases {
      Held(s, l);
      ReleaseFields(s, c, l);
      var v := VmOf(s, s.leases[l].vm).value;
      Unreported(s.log, t.log, s.vms[v].uid, VmReleased);
    } else {
      UnknownFields(s, c, l);
    }
    EditQuiet(s, t);
  }

  lemma ProvHookQuiet(s: State, c: CallId)
    requires c in s.calls && s.calls[c].Created?
    ensures Quiet(s, ProvHookS(s, c))
  {
    hide Quiet, ProvHookS;
    ProvHookFields(s, c);
    SilentQuiet(s, ProvHookS(s, c));
  }

  lemma ProvFailQuiet(s: State, c: CallId)
    requires c in s.calls && (s.calls[c].Created? || s.calls[c].Hooking?)
    ensures Quiet(s, ProvFailS(s, c))
  {
    hide Quiet, ProvFailS, Logged, NoReports;
    ProvFailFields(s, c);
    Unlogged(s.log);
    if Alive(s, s.calls[c].vm) {
      Unreported(s.log, ProvFailS(s, c).log, s.vms[s.calls[c].vm].uid, VmHookFailed);
    }
    EditQuiet(s, ProvFailS(s, c));
  }

  lemma ProvReadyQuiet(s: State, c: CallId)
    requires c in s.calls && s.calls[c].Hooking?
    ensures Quiet(s, ProvReadyS(s, c))
  {
    hide Quiet, ProvReadyS, Logged, NoReports;
    ProvReadyFields(s, c);
    Unlogged(s.log);
    if Alive(s, s.calls[c].vm) {
      Unreported(s.log, ProvReadyS(s, c).log, s.vms[s.calls[c].vm].uid, VmAvailable);
    }
    EditQuiet(s, ProvReadyS(s, c));
  }

  lemma DelMarkQuiet(s: State, c: CallId)
    requires c in s.calls && s.calls[c].DeleteWanted?
    ensures Quiet(s, DelMarkS(s, c))
  {
    hide Quiet, DelMarkS, Doomed;
    DelMarkFields(s, c);
    SilentQuiet(s, DelMarkS(s, c));
  }

  lemma DelFailQuiet(s: State, c: CallId)
    requires c in s.calls && s.calls[c].DeleteOnHost?
    ensures Quiet(s, DelFailS(s, c))
    ensures s.calls[c].vm !in s.vms ==> Quiet(s, DelFinishS(s, c))
  {
    hide Quiet, DelFailS, DelFinishS;
    DelFailFields(s, c);
    SilentQuiet(s, DelFailS(s, c));
    if s.calls[c].vm !in s.vms {
      DelFinishFields(s, c);
      SilentQuiet(s, DelFinishS(s, c));
    }
  }

  lemma ProvDropQuiet(s: State, c: CallId)
    requires Inv(s) && c in s.calls && s.calls[c].Placed?
    ensures Quiet(s, ProvDropS(s, c))
  {
    hide Inv, ProvDropS;
    ProvDropFields(s, c);
    Indexed(s);
    if s.calls[c].vm in s.vms {
      Worked(s, c);
    }
  }

  lemma Indexed(s: State)
    requires Inv(s)
    ensures forall u | u in s.byUid :: u != "" && u in s.uids && s.byUid[u] in s.vms && s.vms[s.byUid[u]].uid == u
    ensures forall v | v in s.vms && s.vms[v].uid != "" :: s.vms[v].uid in s.byUid && s.byUid[s.vms[v].uid] == v
  {
    hide PoolsOk, IdsOk, LeasesOk, LedgerOk, WorkersOk, PhasesOk, ClaimsOk, ReleasesOk, CallsOk, RequestsOk, OnceOk, HostsOk, AnswersOk, SweptOk, LogOk;
  }

  lemma WarnQuiet(s: State, l: string)
    requires l in s.leases && s.leases[l].pool in s.pools
    ensures Quiet(s, WarnS(s, l))
  {
    hide Quiet, WarnS, Logged, NoReports;
    WarnFields(s, l);
    Unreported(s.log, WarnS(s, l).log, s.leases[l].vm, VmExpiringSoon);
    EditQuiet(s, WarnS(s, l));
  }

  /** Provisioning a batch is quiet. */
  lemma ProvisionQuiet(s: State, key: PoolKey, rec: nat, n: nat)
    requires Known(s, key, rec) && Numbers(s)
    ensures Quiet(s, ProvisionN(s, key, rec, n))
  {
    hide ProvisionN, Quiet, Logged, NoReports;
    ProvisionGrew(s, key, rec, n);
    var t := ProvisionN(s, key, rec, n);
    Unreported(s.log, t.log, "", PoolReplenishing);
    EditQuiet(s, t);
  }

  lemma LookedQuiet(s: State, key: PoolKey)
    requires key in s.pools
    ensures Quiet(s, Looked(s, key))
  {
    hide Looked, Quiet, Logged, NoReports, TickPoolS, ProvisionN, Deficit;
    TickPoolFields(s, key);
    Unreported(s.log, Looked(s, key).log, "", PoolSizeBelowTarget);
    EditQuiet(s, Looked(s, key));
  }

  // ----- Steps that touch Leases -----

  /** What was reported stays true when every MicroVM and Lease it is about stays gone. */
  lemma GoneStays(s: State, t: State)
    requires ReportsOk(s) && NoReports(s.log, t.log) && forall u | Gone(s, u) :: Gone(t, u)
    ensures ReportsOk(t)
  {
    forall i | 0 <= i < |t.log| && ReportsDeletion(t.log[i]) ensures Gone(t, t.log[i].vm) {
      assert t.log[i] == s.log[i];
      assert Gone(s, s.log[i].vm);
    }
  }

  lemma CreatePoolKeeps(s: State, key: PoolKey, spec: Spec, clean: bool, steady: bool)
    requires Inv(s) && Honest(s, clean, steady)
    requires (clean ==> Clean(s, CreatePool(key, spec))) && (steady ==> Steady(s, CreatePool(key, spec)))
    ensures Kept(s, CreatePoolS(s, key, spec), clean, steady)
  {
    hide Inv, Accepted, ReportsOk;
    var t := CreatePoolS(s, key, spec);
    PoolsHeld(s);
    if clean {
      GoneStays(s, t);
    }
  }

  lemma PoolsHeld(s: State)
    requires Inv(s)
    ensures forall l | l in s.leases :: s.leases[l].pool in s.pools
  {
    hide PoolsOk, IdsOk, UidsOk, LedgerOk, WorkersOk, PhasesOk, ClaimsOk, ReleasesOk, CallsOk, RequestsOk, OnceOk, HostsOk, AnswersOk, SweptOk, LogOk;
    hide Backed;
  }

  lemma UpdatePoolKeeps(s: State, key: PoolKey, spec: Spec, clean: bool, steady: bool)
    requires Honest(s, clean, steady) && (steady ==> Steady(s, UpdatePool(key, spec)))
    ensures Kept(s, UpdatePoolS(s, key, spec), clean, steady)
  {
    hide Accepted, ReportsOk;
    var t := UpdatePoolS(s, key, spec);
    if clean {
      GoneStays(s, t);
    }
  }

  /** The threshold a claim is granted under is no longer than that of the Pool of its key. */
  lemma GrantTimed(s: State, c: CallId, l: string)
    requires Inv(s) && Timed(s) && c in s.calls && s.calls[c].Claiming?
    requires Alive(s, s.calls[c].vm) && Known(s, s.calls[c].key, s.calls[c].rec) && l !in s.ledger
    ensures Timed(GrantS(s, c, l)) && Extends(s.ledger, GrantS(s, c, l).ledger)
  {
    hide Inv, GrantS, Logged;
    GrantFields(s, c, l);
    ClaimRecord(s, c);
  }

  lemma ClaimRecord(s: State, c: CallId)
    requires Inv(s) && c in s.calls && s.calls[c].Claiming?
    ensures Current(s, s.calls[c].key, s.calls[c].rec) || (s.calls[c].rec in s.gone && s.gone[s.calls[c].rec].key == s.calls[c].key)
  {
    hide PoolsOk, IdsOk, UidsOk, LeasesOk, LedgerOk, WorkersOk, PhasesOk, ReleasesOk, CallsOk, RequestsOk, OnceOk, HostsOk, AnswersOk, SweptOk, LogOk;
  }

  lemma GrantReports(s: State, c: CallId, l: string)
    requires Inv(s) && Tidy(s.vms, s.calls, s.pools) && ReportsOk(s) && c in s.calls && s.calls[c].Claiming?
    requires Alive(s, s.calls[c].vm) && Known(s, s.calls[c].key, s.calls[c].rec) && l !in s.ledger
    ensures ReportsOk(GrantS(s, c, l))
  {
    hide Inv, GrantS, Tidy, ReportsOk, Logged, NoReports;
    var t := GrantS(s, c, l);
    var v := s.calls[c].vm;
    GrantFields(s, c, l);
    Unreported(s.log, t.log, s.vms[v].uid, VmClaimed);
    Worked(s, c);
    Alone(s, c);
    Indexed(s);
    GoneStays(s, t);
  }

  lemma GrantKeeps(s: State, c: CallId, l: string, clean: bool, steady: bool)
    requires Inv(s) && (clean ==> Tidy(s.vms, s.calls, s.pools)) && Honest(s, clean, steady) && c in s.calls && s.calls[c].Claiming?
    requires Alive(s, s.calls[c].vm) && Known(s, s.calls[c].key, s.calls[c].rec) && l !in s.ledger
    ensures Kept(s, GrantS(s, c, l), clean, steady)
  {
    hide Inv, GrantS, Tidy, ReportsOk, Timed, Known, Extends;
    if clean {
      GrantReports(s, c, l);
    }
    if steady {
      GrantTimed(s, c, l);
    }
  }

  lemma HeartbeatKeeps(s: State, l: string, clean: bool, steady: bool)
    requires Inv(s) && Honest(s, clean, steady)
    ensures Kept(s, HeartbeatS(s, l), clean, steady)
  {
    hide Inv, HeartbeatS, ReportsOk;
    var t := HeartbeatS(s, l);
    HeartbeatFields(s, l);
    HeldFacts(s);
    if clean {
      GoneStays(s, t);
    }
  }

  lemma ProvCreateKeeps(s: State, c: CallId, uid: string, clean: bool, steady: bool)
    requires Inv(s) && Honest(s, clean, steady) && c in s.calls && s.calls[c].Placed? && uid !in s.uids
    ensures Kept(s, ProvCreateS(s, c, uid), clean, steady)
  {
    hide Inv, ProvCreateS, ReportsOk, Logged, NoReports;
    var t := ProvCreateS(s, c, uid);
    ProvCreateFields(s, c, uid);
    Unlogged(s.log);
    if Alive(s, s.calls[c].vm) {
      Unreported(s.log, t.log, uid, VmProvisioned);
    }
    if clean {
      GoneStays(s, t);
    }
  }

  lemma SweepKeeps(s: State, l: string, clean: bool, steady: bool)
    requires Inv(s) && Honest(s, clean, steady) && l in s.leases
    ensures Kept(s, SweepS(s, l), clean, steady)
  {
    hide Inv, SweepS, ReportsOk;
    var t := SweepS(s, l);
    SweepFields(s, l);
    HeldFacts(s);
    if clean {
      GoneStays(s, t);
    }
  }

  /** Once it is untracked with its Lease dropped, the MicroVM is gone. */
  lemma BuriedGone(s: State, c: CallId)
    requires Inv(s) && c in s.calls && s.calls[c].DeleteOnHost? && s.calls[c].vm in s.vms
    ensures s.vms[s.calls[c].vm].uid != "" ==> Gone(Buried(s, c), s.vms[s.calls[c].vm].uid)
    ensures forall u | Gone(s, u) :: Gone(Buried(s, c), u)
    ensures Extends(s.ledger, Buried(s, c).ledger)
  {
    hide Inv, Buried;
    BuriedFields(s, c);
    HeldFacts(s);
    Indexed(s);
    var u := s.vms[s.calls[c].vm].uid;
    forall l | l in s.leases && s.leases[l].vm == u ensures l == s.vms[s.calls[c].vm].lease {
      Held(s, l);
    }
    Closed(s);
  }

  lemma Closed(s: State)
    requires Inv(s)
    ensures forall l | l in s.ledger && s.ledger[l].cause.None? :: l in s.leases && s.leases[l] == s.ledger[l].lease
  {
    hide PoolsOk, IdsOk, UidsOk, LeasesOk, WorkersOk, PhasesOk, ClaimsOk, ReleasesOk, CallsOk, RequestsOk, OnceOk, HostsOk, AnswersOk, SweptOk, LogOk;
  }

  lemma BuriedKeeps(s: State, c: CallId, clean: bool, steady: bool)
    requires Inv(s) && Honest(s, clean, steady) && c in s.calls && s.calls[c].DeleteOnHost? && s.calls[c].vm in s.vms
    ensures Kept(s, Buried(s, c), clean, steady)
  {
    hide Inv, Buried, Gone;
    var t := Buried(s, c);
    BuriedFields(s, c);
    BuriedGone(s, c);
    if clean {
      forall i | 0 <= i < |t.log| && ReportsDeletion(t.log[i]) ensures Gone(t, t.log[i].vm) {
        if i < |s.log| {
          assert t.log[i] == s.log[i];
          assert Gone(s, s.log[i].vm);
        }
      }
    }
  }

  lemma DeletePoolGone(s: State, key: PoolKey, order: seq<nat>)
    requires Inv(s) && key in s.pools && InOrder(order, PoolVMs(s.vms, key))
    ensures var t := DeletePoolS(s, key, order);
            && (forall u | Gone(s, u) :: Gone(t, u))
            && (forall u | u in Uids(s.vms, order) && u != "" :: Gone(t, u))
            && Extends(s.ledger, t.ledger)
  {
    hide Inv, DeletePoolS, InOrder, LoggedDeletions, Numbers;
    NumbersOk(s);
    InOrderTracked(s, key, order);
    DeletePoolFields(s, key, order);
    HeldFacts(s);
    Indexed(s);
    Closed(s);
    forall l | l in s.leases ensures VmOf(s, s.leases[l].vm).Some? && s.vms[s.byUid[s.leases[l].vm]].pool == s.leases[l].pool {
      Held(s, l);
    }
  }

  lemma PoolKeyOf(s: State, key: PoolKey)
    requires Inv(s) && key in s.pools
    ensures s.pools[key].key == key
  {
    hide IdsOk, UidsOk, LeasesOk, LedgerOk, WorkersOk, PhasesOk, ClaimsOk, ReleasesOk, CallsOk, RequestsOk, OnceOk, HostsOk, AnswersOk, SweptOk, LogOk;
  }

  lemma DeletePoolKeeps(s: State, key: PoolKey, order: seq<nat>, clean: bool, steady: bool)
    requires Inv(s) && Honest(s, clean, steady) && key in s.pools && InOrder(order, PoolVMs(s.vms, key))
    ensures Kept(s, DeletePoolS(s, key, order), clean, steady)
  {
    hide Inv, DeletePoolS, InOrder, Gone, Numbers, Uids;
    var t := DeletePoolS(s, key, order);
    NumbersOk(s);
    InOrderTracked(s, key, order);
    DeletePoolFields(s, key, order);
    DeletePoolGone(s, key, order);
    PoolKeyOf(s, key);
    if clean {
      forall i | 0 <= i < |t.log| && ReportsDeletion(t.log[i]) ensures Gone(t, t.log[i].vm) {
        if i < |s.log| {
          assert t.log[i] == s.log[i];
          assert Gone(s, s.log[i].vm);
        }
      }
    }
  }

  lemma BatchKeeps(s: State, step: Step, t: State, clean: bool, steady: bool)
    requires Inv(s) && (clean ==> Tidy(s.vms, s.calls, s.pools)) && Honest(s, clean, steady) && Next(s, step, t)
    requires Provisions(s, step)
    ensures Kept(s, Settled(s, step, t), clean, steady)
  {
    hide MayAdmin, DoAdmin, DoLease, MayRoutine, DoRoutine, DoTick;
    hide Inv, Tidy, Honest, Quiet, Kept, GrantS, Buried, Looked, IsPrior;
    if Grants(s, step) {
      GrantKeeps(s, step.c, step.lease, clean, steady);
    } else if Buries(s, step) {
      BuriedKeeps(s, step.c, clean, steady);
    } else {
      LookedQuiet(s, step.key);
      QuietKeeps(s, Looked(s, step.key), clean, steady);
    }
  }

  /** Once it has settled, a section that provisions only adds MicroVMs. */
  lemma BatchQuiet(s: State, step: Step, t: State)
    requires Inv(s) && Next(s, step, t) && Provisions(s, step)
    ensures Quiet(Settled(s, step, t), t)
  {
    hide Inv, Quiet, GrantS, Buried, Looked, ProvisionN, IsPrior, DelFinishS, TickPoolS, Deficit, Numbers;
    NumbersOk(s);
    if Grants(s, step) {
      GrantShape(s, step.c, step.lease);
      var call := s.calls[step.c];
      ProvisionQuiet(GrantS(s, step.c, step.lease), call.key, call.rec, Batch(s, step));
    } else if Buries(s, step) {
      BuryQuiet(s, step.c);
    } else {
      TickPoolFields(s, step.key);
      LookedNumbers(s, step.key);
      ProvisionQuiet(Looked(s, step.key), step.key, s.pools[step.key].rec, Deficit(s, step.key));
    }
  }

  lemma LookedNumbers(s: State, key: PoolKey)
    requires Numbers(s) && key in s.pools
    ensures Numbers(Looked(s, key)) && Known(Looked(s, key), key, s.pools[key].rec)
  {
    hide Looked, TickPoolS, ProvisionN, Deficit;
    TickPoolFields(s, key);
  }

  lemma BuryQuiet(s: State, c: CallId)
    requires Inv(s) && c in s.calls && s.calls[c].DeleteOnHost? && s.calls[c].vm in s.vms
    ensures Quiet(Buried(s, c), DelFinishS(s, c))
  {
    hide Inv, Buried, Quiet, ProvisionN, DelFinishS, Numbers;
    NumbersOk(s);
    BuriedShape(s, c);
    DelFinishFields(s, c);
    var t := Buried(s, c);
    var key := s.vms[s.calls[c].vm].pool;
    SilentQuiet(t, t);
    if key in t.pools {
      ProvisionQuiet(t, key, t.pools[key].rec, OnDeleted(t.pools[key].spec));
    }
  }

  lemma KeptTrans(s: State, t: State, u: State, clean: bool, steady: bool)
    requires Kept(s, t, clean, steady) && Kept(t, u, clean, steady)
    ensures Kept(s, u, clean, steady)
  {
  }

  lemma ProvisioningKeeps(s: State, step: Step, t: State, clean: bool, steady: bool)
    requires Honest(s, clean, steady) && Inv(s) && Next(s, step, t) && Routine(step) && !step.DelMark? && !step.DelFail? && !step.DelFinish?
    ensures Kept(s, t, clean, steady)
  {
    hide MayAdmin, DoAdmin, MayLease, DoLease, MayTick, DoTick;
    hide Inv, Honest, Quiet, Kept, ProvDropS, ProvCreateS, ProvHookS, ProvFailS, ProvReadyS;
    match step
    case ProvCreate(c, uid) => ProvCreateKeeps(s, c, uid, clean, steady);
    case ProvDrop(c) => ProvDropQuiet(s, c); QuietKeeps(s, t, clean, steady);
    case ProvHook(c) => ProvHookQuiet(s, c); QuietKeeps(s, t, clean, steady);
    case ProvFail(c) => ProvFailQuiet(s, c); QuietKeeps(s, t, clean, steady);
    case ProvReady(c) => ProvReadyQuiet(s, c); QuietKeeps(s, t, clean, steady);
  }

  lemma DeletionKeeps(s: State, step: Step, t: State, clean: bool, steady: bool)
    requires Honest(s, clean, steady) && Next(s, step, t) && (step.DelMark? || step.DelFail? || step.DelFinish?) && !Buries(s, step)
    ensures Kept(s, t, clean, steady)
  {
    hide MayAdmin, DoAdmin, MayLease, DoLease, MayTick, DoTick;
    hide Honest, Quiet, Kept, DelMarkS, DelFailS, DelFinishS;
    match step
    case DelMark(c) => DelMarkQuiet(s, c); QuietKeeps(s, t, clean, steady);
    case DelFail(c) => DelFailQuiet(s, c); QuietKeeps(s, t, clean, steady);
    case DelFinish(c) => DelFailQuiet(s, c); QuietKeeps(s, t, clean, steady);
  }

  lemma RoutineKeeps(s: State, step: Step, t: State, clean: bool, steady: bool)
    requires Inv(s) && Honest(s, clean, steady) && Next(s, step, t) && Routine(step) && !Buries(s, step)
    ensures Kept(s, t, clean, steady)
  {
    hide Inv, Honest, Kept, Next, Buries;
    if step.DelMark? || step.DelFail? || step.DelFinish? {
      DeletionKeeps(s, step, t, clean, steady);
    } else {
      ProvisioningKeeps(s, step, t, clean, steady);
    }
  }

  lemma LeasingKeeps(s: State, step: Step, t: State, clean: bool, steady: bool)
    requires Inv(s) && Honest(s, clean, steady) && Next(s, step, t) && Leasing(step) && !Grants(s, step)
    ensures Kept(s, t, clean, steady)
  {
    hide MayAdmin, DoAdmin, MayRoutine, DoRoutine, MayTick, DoTick;
    hide Inv, Honest, Quiet, Kept, SelectS, CommitS, ClaimFailS, HeartbeatS, ReleaseS, IsPrior, IsOldest, FreshLease, Known;
    match step
    case ClaimSelect(c, key, request, prior, vm) => SelectQuiet(s, c, key, request, prior, vm); QuietKeeps(s, t, clean, steady);
    case ClaimCommit(c, prior, l) => CommitQuiet(s, c, prior, l); QuietKeeps(s, t, clean, steady);
    case ClaimFail(c) => ClaimFailQuiet(s, c); QuietKeeps(s, t, clean, steady);
    case Heartbeat(l) => HeartbeatKeeps(s, l, clean, steady);
    case Release(c, l) => ReleaseQuiet(s, c, l); QuietKeeps(s, t, clean, steady);
  }

  lemma AdminKeeps(s: State, step: Step, t: State, clean: bool, steady: bool)
    requires Inv(s) && Honest(s, clean, steady) && Next(s, step, t) && Admin(step) && (clean ==> Clean(s, step)) && (steady ==> Steady(s, step))
    ensures Kept(s, t, clean, steady)
  {
    hide MayLease, DoLease, MayRoutine, DoRoutine, MayTick, DoTick;
    hide Inv, Honest, Quiet, Kept, CreatePoolS, UpdatePoolS, DeletePoolS, InOrder, InUse, Clean, Steady;
    hide AddHostS, UpdateHostS, RemoveHostS, SetCordonedS;
    match step
    case CreatePool(key, spec) => CreatePoolKeeps(s, key, spec, clean, steady);
    case UpdatePool(key, spec) => UpdatePoolKeeps(s, key, spec, clean, steady);
    case DeletePool(key, _, order) => DeletePoolKeeps(s, key, order, clean, steady);
    case _ => AdminQuiet(s, step, t); QuietKeeps(s, t, clean, steady);
  }

  /** The clock and the Hosts say nothing about Leases. */
  lemma AdminQuiet(s: State, step: Step, t: State)
    requires Next(s, step, t) && Admin(step) && !step.CreatePool? && !step.UpdatePool? && !step.DeletePool?
    ensures Quiet(s, t)
  {
    hide MayLease, DoLease, MayRoutine, DoRoutine, MayTick, DoTick, Quiet, Named, Occupied;
    SilentQuiet(s, t);
  }

  lemma TickKeeps(s: State, step: Step, t: State, clean: bool, steady: bool)
    requires Inv(s) && Honest(s, clean, steady) && Next(s, step, t) && Ticking(step) && !step.TickPool?
    ensures Kept(s, t, clean, steady)
  {
    hide MayAdmin, DoAdmin, MayLease, DoLease, MayRoutine, DoRoutine;
    hide Inv, Honest, Quiet, Kept, SweepS, WarnS, DueWarning;
    match step
    case Sweep(l, _) => SweepKeeps(s, l, clean, steady);
    case Warn(l, _) => WarnQuiet(s, l); QuietKeeps(s, t, clean, steady);
    case Retry(v) =>
      SilentQuiet(s, t);
      QuietKeeps(s, t, clean, steady);
  }

  /** Every section of a clean run keeps what was reported true; with steady thresholds, expiries also only move on. */
  lemma StepKeeps(s: State, step: Step, t: State, clean: bool, steady: bool)
    requires Inv(s) && Honest(s, clean, steady) && Next(s, step, t)
    requires (clean ==> Tidy(s.vms, s.calls, s.pools) && Clean(s, step)) && (steady ==> Steady(s, step))
    ensures Kept(s, t, clean, steady)
  {
    hide Inv, Tidy, Honest, Quiet, Kept, Settled, Next, Clean, Steady, Grants, Buries;
    if Provisions(s, step) {
      BatchKeeps(s, step, t, clean, steady);
      BatchQuiet(s, step, t);
      KeptHonest(s, Settled(s, step, t), clean, steady);
      QuietKeeps(Settled(s, step, t), t, clean, steady);
      KeptTrans(s, Settled(s, step, t), t, clean, steady);
    } else if Admin(step) {
      AdminKeeps(s, step, t, clean, steady);
    } else if Leasing(step) {
      LeasingKeeps(s, step, t, clean, steady);
    } else if Routine(step) {
      RoutineKeeps(s, step, t, clean, steady);
    } else {
      TickKeeps(s, step, t, clean, steady);
    }
  }

  lemma KeptHonest(s: State, t: State, clean: bool, steady: bool)
    requires Kept(s, t, clean, steady)
    ensures Honest(t, clean, steady)
  {
  }

  lemma InitHonest(placement: Placement, clean: bool, steady: bool)
    ensures Honest(Init(placement), clean, steady)
  {
  }

  // ----- Over every run -----

  ghost predicate SteadyRun(states: seq<State>, steps: seq<Step>) {
    Run(states, steps) && forall i | 0 <= i < |steps| :: Steady(states[i], steps[i])
  }

  lemma {:induction false} RunReports(states: seq<State>, steps: seq<Step>, placement: Placement, j: nat)
    requires CleanRun(states, steps) && states[0] == Init(placement) && j < |states|
    ensures Inv(states[j]) && ReportsOk(states[j])
    decreases j
  {
    hide Inv, Next, Clean, Tidy, ReportsOk;
    InitInv(placement);
    InitHonest(placement, true, false);
    RunInv(states, steps, placement, j);
    if j > 0 {
      assert NextAt(states, steps, j - 1);
      RunOrder(states, steps, placement, j - 1);
      RunReports(states, steps, placement, j - 1);
      StepKeeps(states[j - 1], steps[j - 1], states[j], true, false);
    }
  }

  lemma {:induction false} RunTimed(states: seq<State>, steps: seq<Step>, placement: Placement, i: nat, j: nat)
    requires SteadyRun(states, steps) && states[0] == Init(placement) && i <= j < |states|
    ensures Timed(states[j]) && Extends(states[i].ledger, states[j].ledger)
    decreases j
  {
    hide Inv, Next, Steady, Timed;
    InitHonest(placement, false, true);
    if j > 0 {
      assert NextAt(states, steps, j - 1);
      RunInv(states, steps, placement, j - 1);
      RunTimed(states, steps, placement, if i < j then i else j - 1, j - 1);
      StepKeeps(states[j - 1], steps[j - 1], states[j], false, true);
    }
  }

  /** A MicroVM whose deletion was reported has no Lease, then or ever after. */
  lemma DeletionIsFinal(states: seq<State>, steps: seq<Step>, placement: Placement, i: nat, j: nat, k: nat, l: string)
    requires CleanRun(states, steps) && states[0] == Init(placement) && i <= j < |states|
    requires k < |states[i].log| && ReportsDeletion(states[i].log[k]) && l in states[j].leases
    ensures states[j].leases[l].vm != states[i].log[k].vm
  {
    hide Inv, Run, Clean;
    RunReports(states, steps, placement, j);
    RunGrows(states, steps, placement, i, j);
    HeldFacts(states[j]);
    assert states[j].log[k] == states[i].log[k];
    assert Gone(states[j], states[j].log[k].vm);
  }

  /** When no threshold is made shorter, a Lease held twice has not lost time in between, in any run. */
  lemma ExpiryMovesOn(states: seq<State>, steps: seq<Step>, placement: Placement, i: nat, j: nat, l: string)
    requires SteadyRun(states, steps) && states[0] == Init(placement) && i <= j < |states|
    requires l in states[i].leases && l in states[j].leases
    ensures states[i].leases[l].expiresAt <= states[j].leases[l].expiresAt
  {
    hide Inv, Run, Steady, Timed;
    RunTimed(states, steps, placement, i, j);
    RunInv(states, steps, placement, i);
    RunInv(states, steps, placement, j);
    HeldFacts(states[i]);
    HeldFacts(states[j]);
  }
}
