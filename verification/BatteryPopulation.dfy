/** How many MicroVMs a Pool may have, and how a batch is spread over Hosts. */
module BatteryPopulation {
  import opened BatteryTypes
  import opened BatterySections
  import opened BatteryInvariant
  import opened BatteryRuns
  import opened BatteryHistory
  import opened BatteryTheorems
  import opened BatteryFields
  import opened BatteryShape

  /** The phases a strategy counts against the size of the Pool. */
  function Counted(strategy: Strategy): set<Phase> {
    match strategy
    case ImmediateOnLease => {Available} + PROVISIONING
    case MinSizeThreshold => {Available} + LEASED + PROVISIONING
    case ReplaceOnDelete => {Available} + LEASED + PROVISIONING + {Deleting}
  }

  ghost function Population(s: State, key: PoolKey): nat
    requires key in s.pools
  {
    Count(s.vms, key, Counted(s.pools[key].spec.strategy))
  }

  lemma CountUnion(vms: map<nat, VM>, key: PoolKey, a: set<Phase>, b: set<Phase>)
    requires a !! b
    ensures Count(vms, key, a + b) == Count(vms, key, a) + Count(vms, key, b)
  {
    assert Members(vms, key, a + b) == Members(vms, key, a) + Members(vms, key, b);
  }

  /** The tick asks for what is missing to the size, or for nothing. */
  lemma DeficitBound(s: State, key: PoolKey)
    requires key in s.pools
    ensures Deficit(s, key) == 0 || Deficit(s, key) == s.pools[key].spec.size - Population(s, key)
    ensures s.pools[key].spec.strategy != MinSizeThreshold ==> s.pools[key].spec.size - Population(s, key) <= Deficit(s, key)
  {
    hide Count;
    CountUnion(s.vms, key, {Available}, PROVISIONING);
    CountUnion(s.vms, key, {Available}, LEASED);
    CountUnion(s.vms, key, {Available} + LEASED, PROVISIONING);
    CountUnion(s.vms, key, {Available} + LEASED + PROVISIONING, {Deleting});
  }

  ghost function Ids(m: nat, n: nat): (r: set<nat>)
    requires m <= n
    ensures |r| == n - m
    ensures forall v :: v in r <==> m < v <= n
    decreases n
  {
    if m == n then {} else Ids(m, n - 1) + {n}
  }

  /** A batch adds its own new MicroVMs to the counts of its Pool that include PROVISIONING, and nothing to others. */
  lemma MoreCount(a: map<nat, VM>, b: map<nat, VM>, m: nat, n: nat, key: PoolKey, hosts: map<string, Host>, k: PoolKey,
                  phases: set<Phase>)
    requires MoreVms(a, b, m, n, key, hosts) && forall v | v in a :: v <= m
    ensures Count(b, k, phases) == Count(a, k, phases) + (if k == key && Provisioning in phases then n - m else 0)
  {
    hide Eligible;
    var ids := Ids(m, n);
    if k == key && Provisioning in phases {
      assert Members(b, k, phases) == Members(a, k, phases) + ids;
    } else {
      assert Members(b, k, phases) == Members(a, k, phases);
    }
  }

  lemma Fewer<T>(a: set<T>, b: set<T>)
    requires a <= b
    ensures |a| <= |b|
  {
    if a != {} {
      var x :| x in a;
      Fewer(a - {x}, b - {x});
    }
  }

  lemma NoBatchKeys(s: State, step: Step, t: State)
    requires Inv(s) && Next(s, step, t) && !Provisions(s, step)
    ensures t.vms.Keys <= s.vms.Keys
  {
    hide Inv, Next, Numbers;
    NoBatch(s, step, t);
    StepInv(s, step, t);
    StepGrows(s, step, t);
    TrackedIds(t);
  }

  lemma TrackedIds(s: State)
    requires Inv(s)
    ensures forall v | v in s.vms :: v <= s.nextVM
  {
    hide Inv;
    NumbersOk(s);
  }

  /** The Pool keeps its spec from one state of the run to another. */
  ghost predicate Unchanged(states: seq<State>, i: nat, j: nat, key: PoolKey)
    requires i <= j < |states|
  {
    forall k | i <= k <= j :: key in states[k].pools && key in states[i].pools && states[k].pools[key].spec == states[i].pools[key].spec
  }

  // ----- The drained spec -----

  /** The spec a Pool under deletion is given: it asks for no MicroVM. */
  function Drained(spec: Spec): Spec {
    spec.(size := 0, strategy := MinSizeThreshold, minSize := Some(1))
  }

  predicate IsDrained(spec: Spec) {
    spec.size == 0 && spec.strategy == MinSizeThreshold && spec.minSize == Some(1)
  }

  /** A spec is drained exactly if draining it changes nothing; draining keeps a valid spec valid and its Hosts and threshold. */
  lemma DrainedExactly(key: PoolKey, spec: Spec)
    ensures IsDrained(Drained(spec)) && (IsDrained(spec) <==> Drained(spec) == spec)
    ensures ValidSpec(key, spec) ==> ValidSpec(key, Drained(spec))
    ensures Drained(spec).hosts == spec.hosts && Drained(spec).threshold == spec.threshold && Drained(spec).policy == spec.policy
  {
  }

  // ----- Filling up -----

  lemma {:induction false} ReserveAll(s: State, key: PoolKey, rec: nat, n: nat)
    requires Known(s, key, rec) && Pick(s, Record(s, key, rec)).Some?
    ensures Reserve(s, key, rec, n).nextVM == s.nextVM + n
    decreases n
  {
    hide Place, Pick;
    if n > 0 {
      var p := Record(s, key, rec);
      var h := Pick(s, p);
      var t := Place(s, key, rec, h.value);
      PlaceSpec(s, key, rec, h.value);
      StillPicks(s, t, p, Record(t, key, rec));
      ReserveAll(t, key, rec, n - 1);
    }
  }

  lemma PlaceSpec(s: State, key: PoolKey, rec: nat, h: string)
    requires Known(s, key, rec)
    ensures var t := Place(s, key, rec, h);
            && Record(t, key, rec).spec == Record(s, key, rec).spec && Record(t, key, rec).key == Record(s, key, rec).key
            && t.hosts == s.hosts && t.placement == s.placement && t.running == s.running && t.nextVM == s.nextVM + 1
            && t.vms == s.vms[t.nextVM := NewVM(key, Record(s, key, rec).spec.policy, h, s.now)]
  {
  }

  lemma StillPicks(s: State, t: State, p: Pool, q: Pool)
    requires t.hosts == s.hosts && q.spec == p.spec && Pick(s, p).Some?
    ensures Pick(t, q).Some?
  {
  }

  /**
   * After the tick of a running manager has looked at a Pool with an eligible Host, what the strategy counts is at
   * least the size; only MIN_SIZE_THRESHOLD may leave it lower, while enough MicroVMs are available.
   */
  lemma TickFills(s: State, key: PoolKey)
    requires Inv(s) && key in s.pools && s.running && exists h :: h in s.pools[key].spec.hosts && Eligible(s.hosts, h)
    ensures var t := TickPoolS(s, key);
            && key in t.pools && t.pools[key].spec == s.pools[key].spec
            && (Population(t, key) >= s.pools[key].spec.size
                || (s.pools[key].spec.strategy == MinSizeThreshold
                    && Count(s.vms, key, {Available}) >= MinSize(s.pools[key].spec)))
  {
    hide Inv, TickPoolS, Looked, Population, Deficit, Count;
    var m := Looked(s, key);
    var n := Deficit(s, key);
    var rec := s.pools[key].rec;
    NumbersOk(s);
    TickPoolFields(s, key);
    LookedPicks(s, key);
    ReserveAll(m, key, rec, n);
    ProvisionAll(m, key, rec, n);
    ProvisionGrew(m, key, rec, n);
    var t := TickPoolS(s, key);
    FilledCount(s, m, t, key, n);
    TickAsks(s, key);
  }

  lemma LookedPicks(s: State, key: PoolKey)
    requires key in s.pools && exists h :: h in s.pools[key].spec.hosts && Eligible(s.hosts, h)
    ensures var m := Looked(s, key);
            key in m.pools && m.pools[key].rec == s.pools[key].rec && Pick(m, m.pools[key]).Some?
  {
    hide Looked, Deficit, TickPoolS, ProvisionN;
    TickPoolFields(s, key);
  }

  lemma ProvisionAll(s: State, key: PoolKey, rec: nat, n: nat)
    requires Known(s, key, rec) && s.running && Reserve(s, key, rec, n).nextVM == s.nextVM + n
    ensures ProvisionN(s, key, rec, n).nextVM == s.nextVM + n
  {
    hide Reserve;
  }

  lemma FilledCount(s: State, m: State, t: State, key: PoolKey, n: nat)
    requires key in s.pools && m.vms == s.vms && PoolsLike(s.pools, m.pools) && Grew(m, t, key, n) && t.nextVM == m.nextVM + n
    requires forall v | v in s.vms :: v <= m.nextVM
    ensures key in t.pools && Population(t, key) == Population(s, key) + n
  {
    hide Count;
    MoreCount(m.vms, t.vms, m.nextVM, t.nextVM, key, m.hosts, key, Counted(s.pools[key].spec.strategy));
  }

  lemma TickAsks(s: State, key: PoolKey)
    requires key in s.pools
    ensures Population(s, key) + Deficit(s, key) >= s.pools[key].spec.size
            || (s.pools[key].spec.strategy == MinSizeThreshold && Count(s.vms, key, {Available}) >= MinSize(s.pools[key].spec))
  {
    hide Count;
    CountUnion(s.vms, key, {Available}, LEASED);
    CountUnion(s.vms, key, {Available} + LEASED, PROVISIONING);
    DeficitBound(s, key);
  }

  /** With IMMEDIATE_ON_LEASE a granted claim adds one to what is available or provisioning, whatever the size. */
  lemma CommitAdds(s: State, c: CallId, l: string)
    requires Inv(s) && MayCommit(s, c, None, l) && Alive(s, s.calls[c].vm) && s.running
    requires Current(s, s.calls[c].key, s.calls[c].rec) && Pick(s, s.pools[s.calls[c].key]).Some?
    requires s.pools[s.calls[c].key].spec.strategy == ImmediateOnLease
    ensures var key := s.calls[c].key;
            var t := CommitS(s, c, None, l);
            && key in t.pools && t.pools[key].spec == s.pools[key].spec
            && Population(t, key) == Population(s, key) + 1
  {
    hide Inv, GrantS, ProvisionN, Population, Pick, IsPrior, FreshLease, Numbers;
    var call := s.calls[c];
    var m := GrantS(s, c, l);
    NumbersOk(s);
    GrantFields(s, c, l);
    GrantShape(s, c, l);
    Worked(s, c);
    LeasedUncounted(s, m, c);
    StillPicks(s, m, s.pools[call.key], m.pools[call.key]);
    ReserveAll(m, call.key, call.rec, 1);
    ProvisionAll(m, call.key, call.rec, 1);
    ProvisionGrew(m, call.key, call.rec, 1);
    var t := ProvisionN(m, call.key, call.rec, 1);
    GrantIds(m);
    FilledCount(m, m, t, call.key, 1);
  }

  lemma GrantIds(s: State)
    requires Numbers(s)
    ensures forall v | v in s.vms :: v <= s.nextVM
  {
  }

  lemma LeasedUncounted(s: State, m: State, c: CallId)
    requires c in s.calls && s.calls[c].Claiming? && s.calls[c].vm in s.vms && s.calls[c].key in s.pools
    requires s.vms[s.calls[c].vm].phase in {PreLeaseHookRunning, Deleting} && PoolsLike(s.pools, m.pools)
    requires s.pools[s.calls[c].key].spec.strategy == ImmediateOnLease
    requires s.calls[c].vm in m.vms && m.vms[s.calls[c].vm].phase == Leased && m.vms == s.vms[s.calls[c].vm := m.vms[s.calls[c].vm]]
    ensures Population(m, s.calls[c].key) == Population(s, s.calls[c].key)
  {
    var phases := Counted(ImmediateOnLease);
    assert Members(m.vms, s.calls[c].key, phases) == Members(s.vms, s.calls[c].key, phases);
  }

  /** A batch is as large as it was asked to be, or empty if the manager does not run or no Host is eligible. */
  lemma PlacedExactly(s: State, key: PoolKey, rec: nat, n: nat)
    requires Known(s, key, rec)
    ensures ProvisionN(s, key, rec, n).nextVM ==
            s.nextVM + (if s.running && AnyEligible(s, Record(s, key, rec).spec) then n else 0)
  {
    hide Reserve, Emit;
    var p := Record(s, key, rec);
    var h := Pick(s, p);
    if s.running && AnyEligible(s, p.spec) {
      ReserveAll(s, key, rec, n);
    } else {
      ReserveNone(s, key, rec, n);
    }
  }

  ghost predicate AnyEligible(s: State, spec: Spec) {
    exists h :: h in spec.hosts && Eligible(s.hosts, h)
  }

  lemma ReserveNone(s: State, key: PoolKey, rec: nat, n: nat)
    requires Known(s, key, rec)
    ensures !AnyEligible(s, Record(s, key, rec).spec) ==> Reserve(s, key, rec, n) == s
  {
  }

  lemma TickPlaces(s: State, key: PoolKey)
    requires key in s.pools
    ensures TickPoolS(s, key).nextVM == s.nextVM + (if s.running && AnyEligible(s, s.pools[key].spec) then Deficit(s, key) else 0)
  {
    hide TickPoolS, Looked, ProvisionN, Deficit, AnyEligible;
    TickPoolFields(s, key);
    var m := Looked(s, key);
    PlacedExactly(m, key, s.pools[key].rec, Deficit(s, key));
    SameEligible(s, m, s.pools[key].spec);
  }

  lemma TickSettled(s: State, step: Step, t: State)
    requires Next(s, step, t) && step.TickPool?
    ensures Settled(s, step, t).vms == s.vms && !Grants(s, step) && !Buries(s, step) && BatchKey(s, step) == step.key && step.key in s.pools
  {
    hide MayAdmin, DoAdmin, MayLease, DoLease, MayRoutine, DoRoutine, DoTick, Looked;
    TickPoolFields(s, step.key);
  }


  lemma TickNext(s: State, key: PoolKey, t: State)
    requires Next(s, TickPool(key), t)
    ensures key in s.pools && t == TickPoolS(s, key)
  {
    hide TickPoolS, MayAdmin, DoAdmin, MayLease, DoLease, MayRoutine, DoRoutine;
  }


  lemma BuryPlaces(s: State, step: Step, t: State)
    requires Next(s, step, t) && Buries(s, step)
    ensures var key := s.vms[s.calls[step.c].vm].pool;
            t.nextVM == s.nextVM + (if key in s.pools && s.running && AnyEligible(s, s.pools[key].spec) then OnDeleted(s.pools[key].spec) else 0)
  {
    hide Buried, ProvisionN, DelFinishS, AnyEligible;
    hide MayAdmin, DoAdmin, MayLease, DoLease, MayTick, DoTick;
    BuriedFields(s, step.c);
    DelFinishFields(s, step.c);
    var m := Buried(s, step.c);
    var key := s.vms[s.calls[step.c].vm].pool;
    if key in s.pools {
      PlacedExactly(m, key, m.pools[key].rec, OnDeleted(m.pools[key].spec));
      SameEligible(s, m, s.pools[key].spec);
    }
  }

  // ----- What a claim that outlives its Pool brings -----

  /** The claim began under a deleted Pool of the key, which replaced what was claimed, and its batch can be placed. */
  ghost predicate LateGrant(s: State, step: Step, key: PoolKey) {
    && Grants(s, step) && s.running
    && var call := s.calls[step.c];
       && call.key == key && !Current(s, key, call.rec) && call.rec in s.gone
       && s.gone[call.rec].spec.strategy == ImmediateOnLease && AnyEligible(s, s.gone[call.rec].spec)
  }

  /** A grant adds the batch of the record it was made under. */
  lemma GrantPlaces(s: State, step: Step, t: State)
    requires Inv(s) && Next(s, step, t) && Grants(s, step)
    ensures var call := s.calls[step.c];
            && Known(s, call.key, call.rec)
            && t.nextVM == s.nextVM + (if s.running && AnyEligible(s, Record(s, call.key, call.rec).spec) then Batch(s, step) else 0)
  {
    hide Inv, GrantS, ProvisionN, IsPrior, FreshLease, AnyEligible;
    hide MayAdmin, DoAdmin, MayRoutine, DoRoutine, MayTick, DoTick;
    var call := s.calls[step.c];
    GrantFields(s, step.c, step.lease);
    NumbersOk(s);
    GrantShape(s, step.c, step.lease);
    var m := GrantS(s, step.c, step.lease);
    PlacedExactly(m, call.key, call.rec, Batch(s, step));
    SameEligible(s, m, Record(s, call.key, call.rec).spec);
  }

  lemma SameEligible(s: State, t: State, spec: Spec)
    requires t.hosts == s.hosts
    ensures AnyEligible(s, spec) == AnyEligible(t, spec)
  {
  }

  /** A new MicroVM of a Pool is one of a batch for it. */
  lemma NewcomersPlaced(s: State, step: Step, t: State, key: PoolKey)
    requires Inv(s) && Next(s, step, t)
    ensures (exists v :: v in PoolVMs(t.vms, key) && v !in PoolVMs(s.vms, key)) <==>
            Provisions(s, step) && BatchKey(s, step) == key && t.nextVM > s.nextVM
  {
    hide Inv, Next, Settled, Count, Grants, Buries, Batch, BatchKey;
    StepGrows(s, step, t);
    TrackedIds(s);
    if Provisions(s, step) {
      BatchShape(s, step, t);
      SettledNumber(s, step, t);
      if t.nextVM > s.nextVM && BatchKey(s, step) == key {
        assert t.nextVM in PoolVMs(t.vms, key);
      }
    } else {
      NoBatchKeys(s, step, t);
    }
  }

  lemma SettledNumber(s: State, step: Step, t: State)
    requires Next(s, step, t) && Provisions(s, step)
    ensures Settled(s, step, t).nextVM == s.nextVM
  {
    hide MayAdmin, DoAdmin, DoLease, MayRoutine, DoRoutine, DoTick;
    hide GrantS, Buried, Looked, IsPrior, FreshLease;
    if Grants(s, step) {
      GrantFields(s, step.c, step.lease);
    } else if Buries(s, step) {
      BuriedFields(s, step.c);
    } else {
      TickPoolFields(s, step.key);
    }
  }

  /**
   * In any reachable state a section brings a MicroVM into a Pool that holds the drained spec if and only if it is the
   * commit of a claim that began under a deleted Pool of the key with IMMEDIATE_ON_LEASE, on a manager that can place one.
   */
  lemma DrainedGains(s: State, step: Step, t: State, key: PoolKey)
    requires Inv(s) && Next(s, step, t) && key in s.pools && IsDrained(s.pools[key].spec)
    ensures (exists v :: v in PoolVMs(t.vms, key) && v !in PoolVMs(s.vms, key)) <==> LateGrant(s, step, key)
  {
    hide Inv, Next, PoolVMs, LateGrant, Provisions, BatchKey;
    NewcomersPlaced(s, step, t, key);
    DrainedBatch(s, step, t, key);
  }

  lemma DrainedBatch(s: State, step: Step, t: State, key: PoolKey)
    requires Inv(s) && Next(s, step, t) && key in s.pools && IsDrained(s.pools[key].spec)
    ensures Provisions(s, step) && BatchKey(s, step) == key && t.nextVM > s.nextVM <==> LateGrant(s, step, key)
  {
    hide Inv, Next, Settled, Count, AnyEligible;
    if Grants(s, step) {
      GrantPlaces(s, step, t);
    } else if Provisions(s, step) {
      BatchShape(s, step, t);
      SettledNumber(s, step, t);
    }
  }

  /** In any run, a Pool that holds the drained spec never has a MicroVM it did not have before, unless such a commit is made. */
  lemma {:induction false} DrainedShrinks(states: seq<State>, steps: seq<Step>, placement: Placement, i: nat, j: nat, key: PoolKey)
    requires Run(states, steps) && states[0] == Init(placement) && i <= j < |states|
    requires Unchanged(states, i, j, key) && IsDrained(states[i].pools[key].spec)
    requires forall k | i <= k < j :: !LateGrant(states[k], steps[k], key)
    ensures PoolVMs(states[j].vms, key) <= PoolVMs(states[i].vms, key)
    decreases j
  {
    hide Inv, Next, PoolVMs, LateGrant;
    if i < j {
      assert NextAt(states, steps, j - 1);
      RunInv(states, steps, placement, j - 1);
      DrainedShrinks(states, steps, placement, i, j - 1, key);
      assert key in states[j - 1].pools;
      DrainedGains(states[j - 1], steps[j - 1], states[j], key);
    }
  }

  // ----- Placement -----

  /** No Host of `hs` holds more of the Pool's MicroVMs than another by more than `gap`. */
  ghost predicate Balanced(vms: map<nat, VM>, key: PoolKey, hs: seq<string>, gap: nat) {
    forall a, b | a in hs && b in hs :: Load(vms, key, a) <= Load(vms, key, b) + gap
  }

  lemma PlaceLoad(vms: map<nat, VM>, v: nat, vm: VM, key: PoolKey, h: string)
    requires v !in vms && vm.pool == key && vm.phase != Deleting
    ensures Load(vms[v := vm], key, h) == Load(vms, key, h) + (if vm.host == h then 1 else 0)
  {
    if vm.host == h {
      assert OnHost(vms[v := vm], key, h) == OnHost(vms, key, h) + {v};
    } else {
      assert OnHost(vms[v := vm], key, h) == OnHost(vms, key, h);
    }
  }

  lemma PlaceBalanced(vms: map<nat, VM>, v: nat, vm: VM, key: PoolKey, hs: seq<string>, gap: nat)
    requires v !in vms && vm.pool == key && vm.phase != Deleting && hs != [] && vm.host == Least(vms, key, hs)
    requires Balanced(vms, key, hs, gap) && gap >= 1
    ensures Balanced(vms[v := vm], key, hs, gap)
  {
    hide Load, Least;
    forall h | h in hs ensures Load(vms[v := vm], key, h) == Load(vms, key, h) + (if vm.host == h then 1 else 0) {
      PlaceLoad(vms, v, vm, key, h);
    }
  }

  /**
   * Under least-VMs placement a batch of any size never makes the gap between the fullest and the emptiest
   * eligible Host of the Pool larger than the greater of one and the gap before it.
   */
  lemma {:induction false} BatchBalanced(s: State, key: PoolKey, rec: nat, n: nat, gap: nat)
    requires Known(s, key, rec) && Record(s, key, rec).key == key && Numbers(s) && s.placement == LeastVMs && gap >= 1
    requires Balanced(s.vms, key, Candidates(s.hosts, Record(s, key, rec).spec.hosts), gap)
    ensures Balanced(Reserve(s, key, rec, n).vms, key, Candidates(s.hosts, Record(s, key, rec).spec.hosts), gap)
    decreases n
  {
    hide Place, Balanced, Least, Numbers, Eligible;
    if n > 0 {
      var p := Record(s, key, rec);
      var h := Pick(s, p);
      if h.Some? {
        var t := Place(s, key, rec, h.value);
        PlaceSpec(s, key, rec, h.value);
        PlaceGrew(s, key, rec, h.value);
        GrantIds(s);
        PlaceBalanced(s.vms, t.nextVM, t.vms[t.nextVM], key, Candidates(s.hosts, p.spec.hosts), gap);
        BatchBalanced(t, key, rec, n - 1, gap);
      }
    }
  }

  // ----- Hosts -----

  ghost function Tracked(vms: map<nat, VM>, h: string): set<nat> {
    set v | v in vms && vms[v].host == h
  }

  /** No section puts a MicroVM on a Host that is cordoned. */
  lemma CordonedStep(s: State, step: Step, t: State, h: string)
    requires Inv(s) && Next(s, step, t) && !Eligible(s.hosts, h)
    ensures Tracked(t.vms, h) <= Tracked(s.vms, h)
  {
    hide Inv, Next, Settled, Grants, Buries, BatchKey, Batch;
    StepGrows(s, step, t);
    TrackedIds(s);
    if Provisions(s, step) {
      BatchShape(s, step, t);
    } else {
      NoBatchKeys(s, step, t);
    }
  }

  /** While a Host stays cordoned, the MicroVMs tracked on it only become fewer. */
  lemma {:induction false} CordonedShrinks(states: seq<State>, steps: seq<Step>, placement: Placement, i: nat, j: nat, h: string)
    requires Run(states, steps) && states[0] == Init(placement) && i <= j < |states|
    requires forall k | i <= k < j :: !Eligible(states[k].hosts, h)
    ensures Tracked(states[j].vms, h) <= Tracked(states[i].vms, h)
    decreases j
  {
    hide Inv, Next, Eligible, Tracked;
    InitInv(placement);
    if i < j {
      assert NextAt(states, steps, j - 1);
      RunInv(states, steps, placement, j - 1);
      CordonedShrinks(states, steps, placement, i, j - 1, h);
      CordonedStep(states[j - 1], steps[j - 1], states[j], h);
    }
  }

  /** Every Host that a Pool names or that a tracked MicroVM is on is registered, whatever was added or removed. */
  lemma HostsHeldInRuns(states: seq<State>, steps: seq<Step>, placement: Placement, i: nat)
    requires Run(states, steps) && states[0] == Init(placement) && i < |states|
    ensures forall k, h | k in states[i].pools && h in states[i].pools[k].spec.hosts :: h in states[i].hosts
    ensures forall v | v in states[i].vms :: states[i].vms[v].host in states[i].hosts
  {
    hide PoolsOk, IdsOk, UidsOk, LeasesOk, LedgerOk, WorkersOk, PhasesOk, ClaimsOk, ReleasesOk, CallsOk, RequestsOk, OnceOk, AnswersOk, SweptOk, LogOk;
    hide Run;
    InitInv(placement);
    RunInv(states, steps, placement, i);
  }
}
