/** Exactly when the population of a Pool rises above its size, with Pools created again or not. */
module BatteryGains {
  import opened BatteryTypes
  import opened BatterySections
  import opened BatteryInvariant
  import opened BatteryRuns
  import opened BatteryHistory
  import opened BatteryTheorems
  import opened BatteryFields
  import opened BatteryShape
  import opened BatteryOrder
  import opened BatteryRevival
  import opened BatteryPopulation

  /** A section that edits the one MicroVM of its call. */
  predicate Edits(step: Step) {
    step.ProvHook? || step.ProvReady? || step.ClaimCommit? || step.DelMark?
  }

  /**
   * The section brings a tracked MicroVM into the count: it takes one out of DELETING, which MIN_SIZE_THRESHOLD does not
   * count, or marks a quarantined one DELETING, which REPLACE_ON_DELETE counts.
   */
  predicate Enters(s: State, step: Step, key: PoolKey) {
    && Edits(step) && step.c in s.calls && s.calls[step.c].vm in s.vms && key in s.pools
    && var vm := s.vms[s.calls[step.c].vm];
       && vm.pool == key
       && match s.pools[key].spec.strategy
          case MinSizeThreshold => !step.DelMark? && vm.phase == Deleting
          case ReplaceOnDelete => step.DelMark? && vm.phase == Quarantined
          case ImmediateOnLease => false
  }

  /** A deletion that is completed forgets a quarantined MicroVM, which was not counted, and replaces it. */
  ghost predicate ReplacesUncounted(s: State, step: Step, key: PoolKey) {
    && Buries(s, step) && key in s.pools && s.pools[key].spec.strategy == ReplaceOnDelete
    && s.vms[s.calls[step.c].vm].pool == key && s.vms[s.calls[step.c].vm].phase == Quarantined
    && s.running && AnyEligible(s, s.pools[key].spec)
  }

  function Bit(b: bool): nat { if b then 1 else 0 }

  /** How many the section adds to the count, the tick apart. */
  ghost function Gain(s: State, step: Step, key: PoolKey): nat {
    Bit(Enters(s, step, key)) + Bit(LateGrant(s, step, key)) + Bit(ReplacesUncounted(s, step, key))
  }

  /** The section takes the population above the larger of the size and what it was. */
  ghost predicate Breaks(s: State, step: Step, key: PoolKey) {
    key in s.pools && Gain(s, step, key) > 0 && Population(s, key) + Gain(s, step, key) > s.pools[key].spec.size
  }

  // ----- Counting -----

  function In(vm: VM, key: PoolKey, phases: set<Phase>): nat {
    Bit(vm.pool == key && vm.phase in phases)
  }

  lemma EditCount(a: map<nat, VM>, b: map<nat, VM>, v: nat, key: PoolKey, phases: set<Phase>)
    requires v in a && v in b && b == a[v := b[v]]
    ensures Count(b, key, phases) == Count(a, key, phases) + In(b[v], key, phases) - In(a[v], key, phases)
  {
    var others := Members(a, key, phases) - {v};
    assert Members(b, key, phases) == if In(b[v], key, phases) == 1 then others + {v} else others;
    assert Members(a, key, phases) == if In(a[v], key, phases) == 1 then others + {v} else others;
  }

  lemma RemoveCount(a: map<nat, VM>, v: nat, key: PoolKey, phases: set<Phase>)
    requires v in a
    ensures Count(a - {v}, key, phases) == Count(a, key, phases) - In(a[v], key, phases)
  {
    assert Members(a - {v}, key, phases) == Members(a, key, phases) - {v};
  }

  /** The phase stays, or the MicroVM leaves every count, or a claim takes it. */
  predicate Settles(a: Phase, b: Phase) {
    b == a || b == Quarantined || (b == Deleting && a != Quarantined) || (a == Available && b == PreLeaseHookRunning)
  }

  ghost predicate AllSettle(a: map<nat, VM>, b: map<nat, VM>, key: PoolKey) {
    forall w | w in a && w in b && a[w].pool == key :: Settles(a[w].phase, b[w].phase)
  }

  /** A count that a MicroVM does not enter as it settles. */
  predicate Closed(phases: set<Phase>) {
    && Quarantined !in phases
    && (PreLeaseHookRunning in phases ==> Available in phases)
    && (Deleting in phases ==> forall phase: Phase | phase != Quarantined :: phase in phases)
  }

  lemma SettleCount(a: map<nat, VM>, b: map<nat, VM>, n: nat, key: PoolKey, phases: set<Phase>)
    requires b.Keys <= a.Keys && AllSettle(a, b, key) && VmsGrow(a, b, n) && Closed(phases) && forall v | v in a :: v <= n
    ensures Count(b, key, phases) <= Count(a, key, phases)
  {
    forall w | w in Members(b, key, phases) ensures w in Members(a, key, phases) {
      assert Settles(a[w].phase, b[w].phase);
    }
    Fewer(Members(b, key, phases), Members(a, key, phases));
  }

  // ----- Sections that bring nothing -----

  lemma FailSettles(s: State, step: Step, t: State, key: PoolKey)
    requires Inv(s) && Next(s, step, t) && (step.ClaimFail? || step.ProvFail?)
    ensures AllSettle(s.vms, t.vms, key)
  {
    hide MayAdmin, DoAdmin, MayTick, DoTick, ClaimFailS, ProvFailS, Inv;
    if s.calls[step.c].vm in s.vms {
      Worked(s, step.c);
    }
    forall w | w in s.vms && w in t.vms ensures Settles(s.vms[w].phase, t.vms[w].phase) {
      match step
      case ClaimFail(c) => ClaimFailPhase(s, c, w);
      case ProvFail(c) => ProvFailPhase(s, c, w);
    }
  }

  lemma TakeSettles(s: State, c: CallId, k: PoolKey, request: string, prior: Option<string>, vm: Option<nat>, key: PoolKey)
    requires prior.Some? ==> prior.value in s.leases
    requires vm.Some? ==> vm.value in s.vms && s.vms[vm.value].phase == Available
    ensures AllSettle(s.vms, SelectS(s, c, k, request, prior, vm).vms, key)
  {
    hide SelectS, Early;
    if Early(s, k, request, prior, vm).Some? {
      EarlyFields(s, c, k, request, prior, vm);
    } else {
      TakeFields(s, c, k, request, prior, vm);
    }
  }

  lemma SelectSettles(s: State, step: Step, t: State, key: PoolKey)
    requires Next(s, step, t) && step.ClaimSelect?
    ensures AllSettle(s.vms, t.vms, key)
  {
    hide MayAdmin, DoAdmin, MayRoutine, DoRoutine, MayTick, DoTick, SelectS, NewRpc, AllSettle;
    TakeSettles(s, step.c, step.key, step.request, step.prior, step.vm, key);
  }

  lemma ReleaseSettles(s: State, c: CallId, l: string, key: PoolKey)
    requires Inv(s)
    ensures AllSettle(s.vms, ReleaseS(s, c, l).vms, key)
  {
    hide Inv, ReleaseS;
    if l in s.leases {
      Held(s, l);
      ReleaseFields(s, c, l);
    } else {
      UnknownFields(s, c, l);
    }
  }

  lemma LeaseSettles(s: State, step: Step, t: State, key: PoolKey)
    requires Inv(s) && Next(s, step, t) && (step.Heartbeat? || step.Release?)
    ensures AllSettle(s.vms, t.vms, key)
  {
    hide MayAdmin, DoAdmin, MayRoutine, DoRoutine, MayTick, DoTick, Inv, HeartbeatS, ReleaseS;
    match step
    case Heartbeat(l) => HeartbeatFields(s, l);
    case Release(c, l) => ReleaseSettles(s, c, l, key);
  }

  lemma RoutineSettles(s: State, step: Step, t: State, key: PoolKey)
    requires Next(s, step, t) && (step.ProvDrop? || step.ProvCreate? || step.DelFail? || (step.DelFinish? && !Buries(s, step)))
    ensures AllSettle(s.vms, t.vms, key)
  {
    hide MayAdmin, DoAdmin, MayLease, DoLease, MayTick, DoTick;
    hide ProvDropS, ProvCreateS, DelFailS, DelFinishS, Buried, ProvisionN, Logged, PoolsLike;
    match step
    case ProvDrop(c) => ProvDropFields(s, c);
    case ProvCreate(c, uid) => ProvCreateFields(s, c, uid);
    case DelFail(c) => DelFailFields(s, c);
    case DelFinish(c) => DelFinishFields(s, c);
  }

  lemma AdminSettles(s: State, step: Step, t: State, key: PoolKey)
    requires Inv(s) && Next(s, step, t) && Admin(step) && key in t.pools
    ensures AllSettle(s.vms, t.vms, key)
  {
    hide MayLease, DoLease, MayRoutine, DoRoutine, MayTick, DoTick;
    hide Inv, InUse, Accepted, Named, Occupied, DeletePoolS, LoggedDeletions;
    if step.DeletePool? {
      NumbersOk(s);
      InOrderTracked(s, step.key, step.order);
      DeletePoolFields(s, step.key, step.order);
    }
  }

  lemma TickSettles(s: State, step: Step, t: State, key: PoolKey)
    requires Next(s, step, t) && Ticking(step) && !step.TickPool?
    ensures AllSettle(s.vms, t.vms, key)
  {
    hide MayAdmin, DoAdmin, MayLease, DoLease, MayRoutine, DoRoutine, SweepS, WarnS, DueWarning;
    if step.Sweep? {
      SweepFields(s, step.lease);
    } else if step.Warn? {
      WarnFields(s, step.lease);
    }
  }

  lemma OthersSettle(s: State, step: Step, t: State, key: PoolKey)
    requires Inv(s) && Next(s, step, t) && !Provisions(s, step) && !Edits(step) && key in t.pools
    ensures AllSettle(s.vms, t.vms, key)
  {
    hide Inv, Next, Grants, Buries, AllSettle;
    if Admin(step) {
      AdminSettles(s, step, t, key);
    } else if step.ClaimSelect? {
      SelectSettles(s, step, t, key);
    } else if step.ClaimFail? || step.ProvFail? {
      FailSettles(s, step, t, key);
    } else if Leasing(step) {
      LeaseSettles(s, step, t, key);
    } else if Routine(step) {
      RoutineSettles(s, step, t, key);
    } else {
      TickSettles(s, step, t, key);
    }
  }

  lemma OthersBring(s: State, step: Step, t: State, key: PoolKey, phases: set<Phase>)
    requires Inv(s) && Next(s, step, t) && !Provisions(s, step) && !Edits(step) && key in t.pools && Closed(phases)
    ensures Count(t.vms, key, phases) <= Count(s.vms, key, phases)
  {
    hide Inv, Next, Grants, Buries, AllSettle, Count, Edits, Closed;
    OthersSettle(s, step, t, key);
    NoBatchKeys(s, step, t);
    StepGrows(s, step, t);
    TrackedIds(s);
    SettleCount(s.vms, t.vms, s.nextVM, key, phases);
  }

  // ----- Sections that edit one MicroVM -----

  /** What the section makes of the phase of its MicroVM. */
  predicate Edited(s: State, step: Step, m: State) {
    && Edits(step) && step.c in s.calls
    && var v := s.calls[step.c].vm;
       if v in s.vms && (step.DelMark? || Alive(s, v)) then
         && v in m.vms && m.vms == s.vms[v := m.vms[v]] && m.vms[v].pool == s.vms[v].pool
         && (step.DelMark? ==> m.vms[v].phase == Deleting)
         && (step.ProvHook? ==> m.vms[v].phase == CreateHookRunning)
         && (step.ProvReady? ==> m.vms[v].phase == Available)
         && (step.ClaimCommit? ==> m.vms[v].phase == if Grants(s, step) then Leased else Available)
       else m.vms == s.vms
  }

  lemma RoutineEdits(s: State, step: Step, t: State)
    requires Next(s, step, t) && (step.ProvHook? || step.ProvReady? || step.DelMark?)
    ensures Edited(s, step, t)
  {
    hide MayAdmin, DoAdmin, MayLease, DoLease, MayTick, DoTick;
    hide ProvHookS, ProvReadyS, DelMarkS, Logged, PoolsLike, Doomed;
    match step
    case ProvHook(c) => ProvHookFields(s, c);
    case ProvReady(c) => ProvReadyFields(s, c);
    case DelMark(c) => DelMarkFields(s, c);
  }

  lemma CommitEdits(s: State, step: Step, t: State)
    requires Next(s, step, t) && step.ClaimCommit?
    ensures Edited(s, step, Settled(s, step, t))
  {
    hide MayAdmin, DoAdmin, MayRoutine, DoRoutine, MayTick, DoTick, GrantS, YieldS, ProvisionN, IsPrior, FreshLease, Logged;
    if Grants(s, step) {
      GrantFields(s, step.c, step.lease);
    } else if Alive(s, s.calls[step.c].vm) {
      YieldFields(s, step.c, step.prior.value);
    }
  }

  /** Where the section finds its MicroVM. */
  lemma EditFinds(s: State, step: Step, t: State)
    requires Inv(s) && Next(s, step, t) && Edits(step) && !step.DelMark? && s.calls[step.c].vm in s.vms
    ensures s.vms[s.calls[step.c].vm].phase != Quarantined
  {
    hide MayAdmin, DoAdmin, DoLease, DoRoutine, MayTick, DoTick, Inv, IsPrior, FreshLease;
    Worked(s, step.c);
  }

  /** It adds one if it brings its MicroVM into the count, and otherwise none. */
  lemma EditBrings(s: State, step: Step, m: State, key: PoolKey)
    requires Edited(s, step, m) && key in s.pools && s.pools[key].spec.strategy != ImmediateOnLease
    requires !step.DelMark? && s.calls[step.c].vm in s.vms ==> s.vms[s.calls[step.c].vm].phase != Quarantined
    ensures var phases := Counted(s.pools[key].spec.strategy);
            if Enters(s, step, key) then Count(m.vms, key, phases) == Count(s.vms, key, phases) + 1
            else Count(m.vms, key, phases) <= Count(s.vms, key, phases)
    ensures step.ClaimCommit? && !Enters(s, step, key) ==>
              Count(m.vms, key, Counted(s.pools[key].spec.strategy)) == Count(s.vms, key, Counted(s.pools[key].spec.strategy))
  {
    hide Count;
    var v := s.calls[step.c].vm;
    if v in s.vms && (step.DelMark? || Alive(s, v)) {
      EditCount(s.vms, m.vms, v, key, Counted(s.pools[key].spec.strategy));
    }
  }

  // ----- Every section -----

  lemma EditChange(s: State, step: Step, t: State, key: PoolKey)
    requires Inv(s) && Next(s, step, t) && Edits(step) && !Grants(s, step)
    requires key in s.pools && key in t.pools && t.pools[key].spec == s.pools[key].spec && s.pools[key].spec.strategy != ImmediateOnLease
    ensures Change(s, step, t, key)
  {
    hide Inv, Next, Edited, Enters, Count, Alive;
    EditCalls(s, step, t);
    if step.ClaimCommit? {
      CommitEdits(s, step, t);
    } else {
      RoutineEdits(s, step, t);
    }
    if !step.DelMark? && s.calls[step.c].vm in s.vms {
      EditFinds(s, step, t);
    }
    EditBrings(s, step, t, key);
  }

  /** The population rises by the gain if there is one, and otherwise does not rise. */
  ghost predicate Change(s: State, step: Step, t: State, key: PoolKey)
    requires key in s.pools && key in t.pools
  {
    if Gain(s, step, key) > 0 then Population(t, key) == Population(s, key) + Gain(s, step, key)
    else Population(t, key) <= Population(s, key)
  }

  lemma BatchCount(s: State, step: Step, t: State, key: PoolKey, phases: set<Phase>)
    requires Inv(s) && Next(s, step, t) && Provisions(s, step) && Provisioning in phases
    ensures t.nextVM >= s.nextVM
    ensures Count(t.vms, key, phases) ==
            Count(Settled(s, step, t).vms, key, phases) + (if BatchKey(s, step) == key then t.nextVM - s.nextVM else 0)
  {
    hide Inv, Next, Settled, Count, Grants, Buries, Batch, BatchKey;
    BatchShape(s, step, t);
    SettledNumber(s, step, t);
    TrackedIds(s);
    MoreCount(Settled(s, step, t).vms, t.vms, s.nextVM, t.nextVM, BatchKey(s, step), Settled(s, step, t).hosts, key, phases);
  }

  lemma GrantChange(s: State, step: Step, t: State, key: PoolKey)
    requires Inv(s) && Next(s, step, t) && Grants(s, step)
    requires key in s.pools && key in t.pools && t.pools[key].spec == s.pools[key].spec && s.pools[key].spec.strategy != ImmediateOnLease
    ensures Change(s, step, t, key)
  {
    hide Inv, Next, Edited, Count, Settled, AnyEligible, Enters;
    CommitEdits(s, step, t);
    EditFinds(s, step, t);
    EditBrings(s, step, Settled(s, step, t), key);
    BatchCount(s, step, t, key, Counted(s.pools[key].spec.strategy));
    GrantPlaces(s, step, t);
  }

  lemma BuryChange(s: State, step: Step, t: State, key: PoolKey)
    requires Inv(s) && Next(s, step, t) && Buries(s, step)
    requires key in s.pools && key in t.pools && t.pools[key].spec == s.pools[key].spec && s.pools[key].spec.strategy != ImmediateOnLease
    ensures Change(s, step, t, key)
  {
    hide Inv, Next, Count, AnyEligible, Buried;
    var phases := Counted(s.pools[key].spec.strategy);
    BuriedFields(s, step.c);
    RemoveCount(s.vms, s.calls[step.c].vm, key, phases);
    BatchCount(s, step, t, key, phases);
    BuryPlaces(s, step, t);
  }

  lemma OtherTickChange(s: State, step: Step, t: State, key: PoolKey)
    requires Inv(s) && Next(s, step, t) && step.TickPool? && step.key != key
    requires key in s.pools && key in t.pools && t.pools[key].spec == s.pools[key].spec && s.pools[key].spec.strategy != ImmediateOnLease
    ensures Change(s, step, t, key)
  {
    hide Inv, Next, Count, Looked;
    TickSettled(s, step, t);
    BatchCount(s, step, t, key, Counted(s.pools[key].spec.strategy));
  }

  /** Every section but the tick of the Pool. */
  lemma PopulationChange(s: State, step: Step, t: State, key: PoolKey)
    requires Inv(s) && Next(s, step, t) && step != TickPool(key)
    requires key in s.pools && key in t.pools && t.pools[key].spec == s.pools[key].spec && s.pools[key].spec.strategy != ImmediateOnLease
    ensures Change(s, step, t, key)
  {
    hide Inv, Next, Change;
    if Grants(s, step) {
      GrantChange(s, step, t, key);
    } else if Edits(step) {
      EditChange(s, step, t, key);
    } else if Buries(s, step) {
      BuryChange(s, step, t, key);
    } else if step.TickPool? {
      OtherTickChange(s, step, t, key);
    } else {
      OthersBring(s, step, t, key, Counted(s.pools[key].spec.strategy));
      NoGain(s, step, t, key);
    }
  }

  lemma NoGain(s: State, step: Step, t: State, key: PoolKey)
    requires key in s.pools && key in t.pools && !Provisions(s, step) && !Edits(step) && Population(t, key) <= Population(s, key)
    ensures Change(s, step, t, key)
  {
    hide Population, AnyEligible;
  }

  /** The tick of the Pool fills it to its size, and no further. */
  lemma TickBound(s: State, step: Step, t: State, key: PoolKey)
    requires Inv(s) && Next(s, step, t) && step == TickPool(key)
    requires key in s.pools && key in t.pools && t.pools[key].spec == s.pools[key].spec && s.pools[key].spec.strategy != ImmediateOnLease
    ensures Population(t, key) <= Population(s, key) || Population(t, key) <= s.pools[key].spec.size
    ensures Gain(s, step, key) == 0
  {
    hide Inv, Count, Looked, Deficit, AnyEligible, TickPoolS;
    TickSettled(s, step, t);
    BatchCount(s, step, t, key, Counted(s.pools[key].spec.strategy));
    TickNext(s, key, t);
    TickPlaces(s, key);
    DeficitBound(s, key);
  }

  /**
   * In any reachable state, while the spec of a Pool with REPLACE_ON_DELETE or MIN_SIZE_THRESHOLD stays, a section takes its
   * population above the larger of the size and what it was if and only if it brings a MicroVM into the count that the
   * strategy did not count, by a revival, a late grant or a deletion of a quarantined one, and there is no room for it.
   */
  lemma BreaksExactly(s: State, step: Step, t: State, key: PoolKey)
    requires Inv(s) && Next(s, step, t)
    requires key in s.pools && key in t.pools && t.pools[key].spec == s.pools[key].spec && s.pools[key].spec.strategy != ImmediateOnLease
    ensures Population(t, key) > Population(s, key) && Population(t, key) > s.pools[key].spec.size <==> Breaks(s, step, key)
  {
    hide Inv, Next, Population, Gain;
    if step == TickPool(key) {
      TickBound(s, step, t, key);
    } else {
      PopulationChange(s, step, t, key);
    }
  }

  /**
   * Between spec changes, over every run, the population of such a Pool never exceeds the larger of its size and what it was
   * at the last change, unless such a section runs.
   */
  lemma {:induction false} PopulationBound(states: seq<State>, steps: seq<Step>, placement: Placement, i: nat, j: nat, key: PoolKey)
    requires Run(states, steps) && states[0] == Init(placement) && i <= j < |states|
    requires Unchanged(states, i, j, key) && states[i].pools[key].spec.strategy != ImmediateOnLease
    requires forall k | i <= k < j :: !Breaks(states[k], steps[k], key)
    ensures Population(states[j], key) <= Population(states[i], key) || Population(states[j], key) <= states[i].pools[key].spec.size
    decreases j
  {
    hide Inv, Next, Population, Breaks;
    if i < j {
      assert NextAt(states, steps, j - 1);
      RunInv(states, steps, placement, j - 1);
      PopulationBound(states, steps, placement, i, j - 1, key);
      assert key in states[j].pools && key in states[j - 1].pools;
      BreaksExactly(states[j - 1], steps[j - 1], states[j], key);
    }
  }

  // ----- Where no Pool is created over MicroVMs of its key -----

  /** A late grant is a claim whose Pool was created again. */
  lemma TidyGrants(s: State, step: Step, key: PoolKey)
    requires Inv(s) && Tidy(s.vms, s.calls, s.pools)
    ensures !LateGrant(s, step, key)
  {
    hide Inv, Tidy, AnyEligible;
    if Grants(s, step) {
      Alone(s, step.c);
      Worked(s, step.c);
    }
  }

  lemma EditCalls(s: State, step: Step, t: State)
    requires Next(s, step, t) && Edits(step)
    ensures step.c in s.calls
    ensures match step
            case ProvHook(c) => s.calls[c].Created?
            case ProvReady(c) => s.calls[c].Hooking?
            case ClaimCommit(c, _, _) => s.calls[c].Claiming?
            case DelMark(c) => s.calls[c].DeleteWanted?
  {
    hide MayAdmin, DoAdmin, DoLease, DoRoutine, MayTick, DoTick, IsPrior, FreshLease;
  }

  lemma TidyGains(s: State, step: Step, t: State, key: PoolKey)
    requires Inv(s) && Tidy(s.vms, s.calls, s.pools) && Next(s, step, t)
    ensures Gain(s, step, key) == 0
  {
    hide Inv, LateGrant, Next, AnyEligible;
    TidyGrants(s, step, key);
    if Edits(step) {
      EditCalls(s, step, t);
      assert s.calls[step.c].vm in s.vms ==> CallFits(s.calls[step.c], s.vms[s.calls[step.c].vm], s.pools);
    }
    if Buries(s, step) {
      assert CallFits(s.calls[step.c], s.vms[s.calls[step.c].vm], s.pools);
    }
  }

  /** In a clean run there is no such section, so the bound holds throughout. */
  lemma {:induction false} CleanBound(states: seq<State>, steps: seq<Step>, placement: Placement, i: nat, j: nat, key: PoolKey)
    requires CleanRun(states, steps) && states[0] == Init(placement) && i <= j < |states|
    requires Unchanged(states, i, j, key) && states[i].pools[key].spec.strategy != ImmediateOnLease
    ensures Population(states[j], key) <= Population(states[i], key) || Population(states[j], key) <= states[i].pools[key].spec.size
  {
    hide Inv, Next, Population, Gain, Tidy, Clean;
    forall k | i <= k < j ensures !Breaks(states[k], steps[k], key) {
      assert NextAt(states, steps, k);
      RunOrder(states, steps, placement, k);
      TidyGains(states[k], steps[k], states[k + 1], key);
    }
    PopulationBound(states, steps, placement, i, j, key);
  }
}
