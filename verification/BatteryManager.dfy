/** The pool manager as an object: its methods are its critical sections, and each does what the section's function says. */
module BatteryManager {
  import opened BatteryTypes
  import opened BatterySections
  import opened BatteryInvariant
  import opened BatteryRuns
  import opened BatteryTheorems
  import opened BatteryFields
  import opened BatteryPieces
  import opened BatteryShape
  import opened BatteryLinks
  import opened BatteryDraining

  /** The calls in flight, and what is remembered only to be reasoned about. */
  datatype Past = Past(
    calls: map<CallId, Call>,
    nextTask: nat,
    answers: map<CallId, Reply>,
    ledger: map<string, Entry>,
    uids: set<string>,
    log: seq<Event>)

  /** The MicroVMs of a Pool in some phases among those already counted. */
  ghost function Among(vms: map<nat, VM>, done: set<nat>, key: PoolKey, phases: set<Phase>): set<nat> {
    set v | v in done && v in vms && vms[v].pool == key && vms[v].phase in phases
  }

  lemma CountOne(vms: map<nat, VM>, done: set<nat>, v: nat, key: PoolKey, phases: set<Phase>)
    requires v in vms && v !in done
    ensures |Among(vms, done + {v}, key, phases)| ==
            |Among(vms, done, key, phases)| + (if vms[v].pool == key && vms[v].phase in phases then 1 else 0)
  {
    if vms[v].pool == key && vms[v].phase in phases {
      assert Among(vms, done + {v}, key, phases) == Among(vms, done, key, phases) + {v};
    } else {
      assert Among(vms, done + {v}, key, phases) == Among(vms, done, key, phases);
    }
  }

  datatype Counts = Counts(available: nat, leased: nat, provisioning: nat, deleting: nat, quarantined: nat)

  /** The counts of the MicroVMs already looked at. */
  ghost predicate Tallied(vms: map<nat, VM>, done: set<nat>, key: PoolKey, c: Counts) {
    && c.available == |Among(vms, done, key, {Available})| && c.leased == |Among(vms, done, key, LEASED)|
    && c.provisioning == |Among(vms, done, key, PROVISIONING)| && c.deleting == |Among(vms, done, key, {Deleting})|
    && c.quarantined == |Among(vms, done, key, {Quarantined})|
  }

  /** One more MicroVM of the Pool, in one of the counts by its phase. */
  function AddTo(c: Counts, phase: Phase): Counts {
    match phase
    case Available => c.(available := c.available + 1)
    case PreLeaseHookRunning => c.(leased := c.leased + 1)
    case Leased => c.(leased := c.leased + 1)
    case Provisioning => c.(provisioning := c.provisioning + 1)
    case CreateHookRunning => c.(provisioning := c.provisioning + 1)
    case Deleting => c.(deleting := c.deleting + 1)
    case Quarantined => c.(quarantined := c.quarantined + 1)
  }

  lemma TallyOne(vms: map<nat, VM>, done: set<nat>, v: nat, key: PoolKey, c: Counts)
    requires v in vms && v !in done && Tallied(vms, done, key, c)
    ensures Tallied(vms, done + {v}, key, if vms[v].pool == key then AddTo(c, vms[v].phase) else c)
  {
    hide Among;
    CountOne(vms, done, v, key, {Available});
    CountOne(vms, done, v, key, LEASED);
    CountOne(vms, done, v, key, PROVISIONING);
    CountOne(vms, done, v, key, {Deleting});
    CountOne(vms, done, v, key, {Quarantined});
  }

  lemma NoneTallied(vms: map<nat, VM>, key: PoolKey)
    ensures Tallied(vms, {}, key, Counts(0, 0, 0, 0, 0))
  {
  }

  /** The population of a Pool by phase. */
  ghost predicate IsPopulation(vms: map<nat, VM>, key: PoolKey, c: Counts) {
    && c.available == Count(vms, key, {Available}) && c.leased == Count(vms, key, LEASED)
    && c.provisioning == Count(vms, key, PROVISIONING) && c.deleting == Count(vms, key, {Deleting})
    && c.quarantined == Count(vms, key, {Quarantined})
  }

  lemma AllTallied(vms: map<nat, VM>, key: PoolKey, c: Counts)
    requires Tallied(vms, vms.Keys, key, c)
    ensures IsPopulation(vms, key, c)
  {
    assert Among(vms, vms.Keys, key, {Available}) == Members(vms, key, {Available});
    assert Among(vms, vms.Keys, key, LEASED) == Members(vms, key, LEASED);
    assert Among(vms, vms.Keys, key, PROVISIONING) == Members(vms, key, PROVISIONING);
    assert Among(vms, vms.Keys, key, {Deleting}) == Members(vms, key, {Deleting});
    assert Among(vms, vms.Keys, key, {Quarantined}) == Members(vms, key, {Quarantined});
  }

  /** The MicroVMs of a Pool on one Host among those already counted. */
  ghost function Loaded(vms: map<nat, VM>, done: set<nat>, key: PoolKey, h: string): set<nat> {
    set v | v in done && v in vms && vms[v].pool == key && vms[v].host == h && vms[v].phase != Deleting
  }

  lemma LoadOne(vms: map<nat, VM>, done: set<nat>, v: nat, key: PoolKey, h: string)
    requires v in vms && v !in done
    ensures |Loaded(vms, done + {v}, key, h)| ==
            |Loaded(vms, done, key, h)| + (if vms[v].pool == key && vms[v].host == h && vms[v].phase != Deleting then 1 else 0)
  {
    if vms[v].pool == key && vms[v].host == h && vms[v].phase != Deleting {
      assert Loaded(vms, done + {v}, key, h) == Loaded(vms, done, key, h) + {v};
    } else {
      assert Loaded(vms, done + {v}, key, h) == Loaded(vms, done, key, h);
    }
  }

  /** The ids of a set, smallest first. */
  method Ascending(ids: set<nat>) returns (order: seq<nat>)
    ensures InOrder(order, ids)
  {
    order := [];
    var left := ids;
    while left != {}
      invariant left <= ids
      invariant forall i, j | 0 <= i < j < |order| :: order[i] < order[j]
      invariant forall v :: v in order <==> v in ids && v !in left
      invariant forall v, w | v in order && w in left :: v < w
      decreases |left|
    {
      var least := Smallest(left);
      assert forall i | 0 <= i < |order| :: order[i] in order;
      left := left - {least};
      order := order + [least];
    }
  }

  method Smallest(ids: set<nat>) returns (least: nat)
    requires ids != {}
    ensures least in ids && forall v | v in ids :: least <= v
  {
    least :| least in ids;
    var left := ids - {least};
    while left != {}
      invariant left <= ids && least in ids
      invariant forall v | v in ids && v !in left :: least <= v
      decreases |left|
    {
      var v :| v in left;
      left := left - {v};
      if v < least {
        least := v;
      }
    }
  }

  /** The answer of a DeletePool. */
  datatype Outcome = Drained | NoPool | StillLeased

  /** Steps of the control loop, and nothing else, lead from one state to the other. */
  ghost predicate Ticked(s: State, t: State) {
    exists states: seq<State>, steps: seq<Step> :: TickRun(states, steps, s, t)
  }

  ghost predicate TickRun(states: seq<State>, steps: seq<Step>, s: State, t: State) {
    Run(states, steps) && states[0] == s && states[|steps|] == t && forall i | 0 <= i < |steps| :: Ticking(steps[i])
  }

  lemma Still(s: State)
    ensures Ticked(s, s)
  {
    assert TickRun([s], [], s, s);
  }

  lemma Onward(s: State, t: State, step: Step, u: State)
    requires Inv(t) && Ticked(s, t) && Next(t, step, u) && Ticking(step)
    ensures Inv(u) && Ticked(s, u)
  {
    hide Next, Inv;
    StepInv(t, step, u);
    var states: seq<State>, steps: seq<Step> :| TickRun(states, steps, s, t);
    var states', steps' := states + [u], steps + [step];
    forall i: nat | i < |steps'| ensures NextAt(states', steps', i) {
      if i < |steps| {
        assert NextAt(states, steps, i);
      }
    }
    assert TickRun(states', steps', s, u);
  }

  lemma SweepNext(s: State, l: string, t: Time)
    requires t <= s.now && l in s.leases && s.leases[l].pool in s.pools && s.leases[l].expiresAt <= t
    ensures Next(s, BatterySections.Sweep(l, t), SweepS(s, l))
  {
    hide SweepS, MayAdmin, DoAdmin, MayLease, DoLease, MayRoutine, DoRoutine;
  }

  lemma WarnNext(s: State, l: string, t: Time)
    requires t <= s.now && l in s.leases && s.leases[l].pool in s.pools && DueWarning(s, l, t)
    ensures Next(s, BatterySections.Warn(l, t), WarnS(s, l))
  {
    hide WarnS, MayAdmin, DoAdmin, MayLease, DoLease, MayRoutine, DoRoutine;
  }

  lemma RetryNext(s: State, v: nat)
    requires RetryDue(s.vms, v)
    ensures Next(s, Retry(v), Spawn(s, DeleteWanted(v, None, "")))
  {
    hide MayAdmin, DoAdmin, MayLease, DoLease, MayRoutine, DoRoutine;
  }

  lemma {:induction false} TickedTrans(s: State, t: State, u: State)
    requires Ticked(s, t) && Ticked(t, u)
    ensures Ticked(s, u)
  {
    hide Next;
    var a: seq<State>, m: seq<Step> :| TickRun(a, m, s, t);
    var b: seq<State>, n: seq<Step> :| TickRun(b, n, t, u);
    var states, steps := a + b[1..], m + n;
    forall i: nat | i < |steps| ensures NextAt(states, steps, i) && Ticking(steps[i]) {
      if i < |m| {
        assert NextAt(a, m, i);
      } else {
        assert NextAt(b, n, i - |m|);
      }
    }
    assert TickRun(states, steps, s, u);
  }

  ghost predicate EachOnce<T(!new)>(order: seq<T>, all: set<T>) {
    && (forall x :: x in order <==> x in all)
    && (forall i, j | 0 <= i < j < |order| :: order[i] != order[j])
  }

  /** The Pools topped up one after the other. */
  ghost function TickPools(s: State, order: seq<PoolKey>): State
    decreases |order|
  {
    if order == [] then s
    else
      var t := TickPools(s, order[..|order| - 1]);
      if order[|order| - 1] in t.pools then TickPoolS(t, order[|order| - 1]) else t
  }

  ghost predicate OnlyCalls(s: State, t: State) {
    t == s.(calls := t.calls, nextTask := t.nextTask)
  }

  lemma NoCalls(s: State)
    ensures OnlyCalls(s, s)
  {
  }

  lemma SpawnOnly(s: State, t: State, call: Call)
    requires OnlyCalls(s, t)
    ensures OnlyCalls(s, Spawn(t, call))
  {
  }

  ghost predicate Wanted(calls: map<CallId, Call>, v: nat) {
    exists c :: c in calls && calls[c] == DeleteWanted(v, None, "")
  }

  lemma WantedNow(calls: map<CallId, Call>, c: CallId, v: nat)
    requires c !in calls
    ensures var more := calls[c := DeleteWanted(v, None, "")];
            Wanted(more, v) && forall w | Wanted(calls, w) :: Wanted(more, w)
  {
    var more := calls[c := DeleteWanted(v, None, "")];
    assert more[c] == DeleteWanted(v, None, "");
    forall w | Wanted(calls, w) ensures Wanted(more, w) {
      var d :| d in calls && calls[d] == DeleteWanted(w, None, "");
      assert more[d] == DeleteWanted(w, None, "");
    }
  }

  lemma FreshTask(s: State)
    requires Inv(s)
    ensures Task(s.nextTask) !in s.calls
  {
    hide PoolsOk, UidsOk, LeasesOk, LedgerOk, WorkersOk, PhasesOk, ClaimsOk, ReleasesOk, CallsOk, RequestsOk, OnceOk, HostsOk, AnswersOk, SweptOk, LogOk;
  }

  ghost predicate StillTracked(a: map<nat, VM>, b: map<nat, VM>) {
    forall v | v in a :: v in b && b[v] == a[v]
  }

  lemma ToppedUp(s: State, key: PoolKey)
    requires Inv(s) && key in s.pools
    ensures TickPoolS(s, key).leases == s.leases && TickPoolS(s, key).pools.Keys == s.pools.Keys
    ensures StillTracked(s.vms, TickPoolS(s, key).vms)
  {
    hide Inv, TickPoolS, Looked, ProvisionN, Deficit, Logged;
    TickPoolFields(s, key);
    NumbersOk(s);
    var t := Looked(s, key);
    ProvisionGrew(t, key, s.pools[key].rec, Deficit(s, key));
  }

  class Battery {
    const placement: Placement
    var now: Time
    var running: bool
    var pools: map<PoolKey, Pool>
    var gone: map<nat, Pool>
    var nextRec: nat
    var vms: map<nat, VM>
    var byUid: map<string, nat>
    var nextVM: nat
    var leases: map<string, Lease>
    var hosts: map<string, Host>
    ghost var past: Past

    ghost function View(): State
      reads this
    {
      State(now, running, placement, pools, gone, nextRec, vms, byUid, nextVM, leases, hosts, past.calls, past.nextTask,
            past.answers, past.ledger, past.uids, past.log)
    }

    constructor (p: Placement)
      ensures View() == Init(p) && Inv(View())
    {
      placement := p;
      now, running, pools, gone, nextRec := 0, false, map[], map[], 0;
      vms, byUid, nextVM, leases, hosts := map[], map[], 0, map[], map[];
      past := Past(map[], 0, map[], map[], {}, []);
      new;
      InitInv(p);
    }

    // ----- Looking things up -----

    /** The held Lease that was created with the request id, if there is one. */
    method FindLease(request: string) returns (prior: Option<string>)
      ensures IsPrior(leases, request, prior)
    {
      if request == "" {
        return None;
      }
      var left := leases.Keys;
      while left != {}
        invariant left <= leases.Keys
        invariant forall l | l in leases && l !in left :: leases[l].request != request
        decreases |left|
      {
        var l :| l in left;
        left := left - {l};
        if leases[l].request == request {
          return Some(l);
        }
      }
      return None;
    }

    /** The MicroVM of the Pool that has been available longest. */
    method OldestAvailable(key: PoolKey) returns (best: Option<nat>)
      ensures IsOldest(vms, key, best)
    {
      best := None;
      var left := vms.Keys;
      while left != {}
        invariant left <= vms.Keys
        invariant best.None? ==> forall w | w !in left :: !IsAvailable(vms, key, w)
        invariant best.Some? ==>
                    IsAvailable(vms, key, best.value) && forall w | w !in left && IsAvailable(vms, key, w) :: Older(vms, best.value, w)
        decreases |left|
      {
        var v :| v in left;
        left := left - {v};
        if IsAvailable(vms, key, v) && (best.None? || !Older(vms, best.value, v)) {
          best := Some(v);
        }
      }
    }

    /** A Pool's population by phase. */
    method CountPhases(key: PoolKey) returns (c: Counts)
      ensures IsPopulation(vms, key, c)
    {
      hide Tallied, IsPopulation, AddTo;
      c := Counts(0, 0, 0, 0, 0);
      NoneTallied(vms, key);
      var left := vms.Keys;
      ghost var done: set<nat> := {};
      while left != {}
        invariant done + left == vms.Keys && done !! left
        invariant Tallied(vms, done, key, c)
        decreases |left|
      {
        var v :| v in left;
        left := left - {v};
        TallyOne(vms, done, v, key, c);
        done := done + {v};
        if vms[v].pool == key {
          c := AddTo(c, vms[v].phase);
        }
      }
      assert done == vms.Keys;
      AllTallied(vms, key, c);
    }

    /** How many of the Pool's MicroVMs that are not on their way out each Host has. */
    method Loads(key: PoolKey) returns (perHost: map<string, nat>)
      ensures forall h :: (if h in perHost then perHost[h] else 0) == Load(vms, key, h)
    {
      perHost := map[];
      var left := vms.Keys;
      ghost var done: set<nat> := {};
      while left != {}
        invariant done + left == vms.Keys && done !! left
        invariant forall h :: (if h in perHost then perHost[h] else 0) == |Loaded(vms, done, key, h)|
        decreases |left|
      {
        var v :| v in left;
        left := left - {v};
        forall h ensures |Loaded(vms, done + {v}, key, h)| ==
          |Loaded(vms, done, key, h)| + (if vms[v].pool == key && vms[v].host == h && vms[v].phase != Deleting then 1 else 0)
        {
          LoadOne(vms, done, v, key, h);
        }
        done := done + {v};
        var vm := vms[v];
        if vm.pool == key && vm.phase != Deleting {
          perHost := perHost[vm.host := (if vm.host in perHost then perHost[vm.host] else 0) + 1];
        }
      }
      forall h ensures Loaded(vms, done, key, h) == OnHost(vms, key, h) {
      }
    }

    /** The Hosts of the Pool that are held and not cordoned, in the order the spec names them. */
    method EligibleHosts(names: seq<string>) returns (candidates: seq<string>)
      ensures candidates == Candidates(hosts, names)
    {
      candidates := [];
      var i := 0;
      while i < |names|
        invariant 0 <= i <= |names| && candidates == Candidates(hosts, names[..i])
      {
        assert names[..i + 1][..i] == names[..i];
        if Eligible(hosts, names[i]) {
          candidates := candidates + [names[i]];
        }
        i := i + 1;
      }
      assert names[..i] == names;
    }

    /** The first of the candidates with the fewest of the Pool's MicroVMs. */
    method LeastLoaded(key: PoolKey, candidates: seq<string>) returns (best: string)
      requires candidates != []
      ensures best == Least(vms, key, candidates)
    {
      hide Load;
      var perHost := Loads(key);
      best := candidates[0];
      assert candidates[..1] == [best];
      var i := 1;
      while i < |candidates|
        invariant 1 <= i <= |candidates| && best == Least(vms, key, candidates[..i])
      {
        assert candidates[..i + 1][..i] == candidates[..i];
        var h := candidates[i];
        if (if h in perHost then perHost[h] else 0) < (if best in perHost then perHost[best] else 0) {
          best := h;
        }
        i := i + 1;
      }
      assert candidates[..i] == candidates;
    }

    /** The Host for a new MicroVM of the Pool. */
    method PickHost(p: Pool) returns (host: Option<string>)
      ensures host == Pick(View(), p)
    {
      hide Least, Eligible;
      var candidates := EligibleHosts(p.spec.hosts);
      if candidates == [] {
        return None;
      }
      if placement == RoundRobin {
        return Some(candidates[p.rr % |candidates|]);
      }
      var best := LeastLoaded(p.key, candidates);
      return Some(best);
    }

    /** Whether every Host the spec names is held. */
    method HoldsHosts(spec: Spec) returns (ok: bool)
      ensures ok <==> HostsHeld(hosts, spec)
    {
      var i := 0;
      while i < |spec.hosts|
        invariant 0 <= i <= |spec.hosts| && forall j | 0 <= j < i :: spec.hosts[j] in hosts
      {
        if spec.hosts[i] !in hosts {
          return false;
        }
        i := i + 1;
      }
      return true;
    }

    // ----- Shared pieces -----

    method AppendEvent(key: PoolKey, vm: string, typ: EventType)
      modifies this`pools, this`past
      ensures View() == Emit(old(View()), key, vm, typ)
    {
      if key !in pools {
        return;
      }
      var p := pools[key];
      past := past.(log := past.log + [Event(key, p.rec, p.nextEvent + 1, vm, typ)]);
      pools := pools[key := p.(nextEvent := p.nextEvent + 1)];
    }

    method ForgetLease(l: string, ghost cause: Cause)
      modifies this`leases, this`pools, this`past
      ensures View() == DropLease(old(View()), l, cause)
    {
      if l !in leases {
        assert leases - {l} == leases;
        return;
      }
      ghost var t := DropLease(View(), l, cause);
      var lease := leases[l];
      leases := leases - {l};
      past := past.(ledger := past.ledger[l := Entry(lease, Some(cause))]);
      if lease.pool in pools {
        var p := pools[lease.pool];
        pools := pools[lease.pool := p.(warned := p.warned - {l})];
      }
      assert View() == t;
    }

    /** The round-robin cursor of the Pool's record moves on, wherever the record is. */
    method MoveCursor(key: PoolKey, rec: nat)
      requires Known(View(), key, rec)
      modifies this`pools, this`gone
      ensures var s := old(View());
              var p := Rotate(Record(s, key, rec), placement);
              View() == if Current(s, key, rec) then s.(pools := s.pools[key := p]) else s.(gone := s.gone[rec := p])
    {
      if key in pools && pools[key].rec == rec {
        pools := pools[key := Rotate(pools[key], placement)];
      } else {
        gone := gone[rec := Rotate(gone[rec], placement)];
      }
    }

    /** The new MicroVM and its provisioning. */
    method Track(key: PoolKey, policy: Policy, host: string)
      modifies this
      ensures View() == Reserved(old(View()), key, policy, host)
    {
      var v := nextVM + 1;
      nextVM, vms := v, vms[v := NewVM(key, policy, host, now)];
      past := past.(calls := past.calls[Task(past.nextTask) := Placed(v)], nextTask := past.nextTask + 1);
    }

    /** Reserves one MicroVM on the Host, and starts its provisioning. */
    method Reserve1(key: PoolKey, rec: nat, host: string)
      requires Known(View(), key, rec)
      modifies this
      ensures View() == Place(old(View()), key, rec, host)
    {
      hide Rotate, Place, Reserved;
      PlaceReserved(View(), key, rec, host);
      var policy := (if key in pools && pools[key].rec == rec then pools[key] else gone[rec]).spec.policy;
      MoveCursor(key, rec);
      Track(key, policy, host);
    }

    /** Reserves up to `n` MicroVMs for the Pool; nothing happens before the manager runs. */
    method Provision(key: PoolKey, rec: nat, n: nat)
      requires Known(View(), key, rec)
      modifies this
      ensures View() == ProvisionN(old(View()), key, rec, n)
    {
      hide Place, Pick, Emit;
      if n == 0 || !running {
        return;
      }
      var first := nextVM;
      var i := 0;
      while i < n
        invariant 0 <= i <= n && Known(View(), key, rec)
        invariant Reserve(View(), key, rec, n - i) == Reserve(old(View()), key, rec, n)
      {
        var host := PickHost(if key in pools && pools[key].rec == rec then pools[key] else gone[rec]);
        if host.None? {
          break;
        }
        Reserve1(key, rec, host.value);
        i := i + 1;
      }
      assert View() == Reserve(old(View()), key, rec, n);
      if nextVM == first {
        return;
      }
      AppendEvent(key, "", PoolReplenishing);
    }

    // ----- Pools and Hosts -----

    method CreatePool(key: PoolKey, spec: Spec) returns (ok: bool)
      modifies this
      ensures View() == CreatePoolS(old(View()), key, spec)
      ensures ok <==> Accepted(old(View()), key, spec) && key !in old(pools)
    {
      var held := HoldsHosts(spec);
      if !ValidSpec(key, spec) || !held || key in pools {
        return false;
      }
      pools := pools[key := Pool(key, nextRec, spec, 0, 0, true, map[])];
      nextRec := nextRec + 1;
      return true;
    }

    method UpdatePool(key: PoolKey, spec: Spec) returns (ok: bool)
      modifies this
      ensures View() == UpdatePoolS(old(View()), key, spec)
      ensures ok <==> Accepted(old(View()), key, spec) && key in old(pools)
    {
      var held := HoldsHosts(spec);
      if !ValidSpec(key, spec) || !held || key !in pools {
        return false;
      }
      pools := pools[key := pools[key].(spec := spec, unfilled := true)];
      return true;
    }

    method AddHost(name: string, address: string, connected: bool) returns (ok: bool)
      modifies this`hosts
      ensures View() == AddHostS(old(View()), name, address, connected)
      ensures ok <==> name != "" && address != "" && name !in old(hosts)
    {
      if name == "" || address == "" || name in hosts {
        return false;
      }
      hosts := hosts[name := Host(address, false, connected)];
      return true;
    }

    method UpdateHost(name: string, address: string, connected: bool) returns (ok: bool)
      modifies this`hosts
      ensures View() == UpdateHostS(old(View()), name, address, connected)
      ensures ok <==> name != "" && address != "" && name in old(hosts)
    {
      if name == "" || name !in hosts || address == "" {
        return false;
      }
      hosts := hosts[name := hosts[name].(address := address, connected := connected)];
      return true;
    }

    /** Refuses a Host that a Pool names or that has a MicroVM. */
    method RemoveHost(name: string) returns (ok: bool)
      modifies this`hosts
      ensures View() == RemoveHostS(old(View()), name)
      ensures ok <==> name in old(hosts) && !Named(pools, name) && !Occupied(vms, name)
    {
      if name !in hosts {
        return false;
      }
      var left := pools.Keys;
      while left != {}
        invariant left <= pools.Keys && forall k | k in pools && k !in left :: name !in pools[k].spec.hosts
        decreases |left|
      {
        var k :| k in left;
        left := left - {k};
        if name in pools[k].spec.hosts {
          return false;
        }
      }
      var ids := vms.Keys;
      while ids != {}
        invariant ids <= vms.Keys && forall v | v in vms && v !in ids :: vms[v].host != name
        decreases |ids|
      {
        var v :| v in ids;
        ids := ids - {v};
        if vms[v].host == name {
          return false;
        }
      }
      hosts := hosts - {name};
      return true;
    }

    method SetCordoned(name: string, cordoned: bool) returns (ok: bool)
      modifies this`hosts
      ensures View() == SetCordonedS(old(View()), name, cordoned)
      ensures ok <==> name in old(hosts)
    {
      if name !in hosts {
        return false;
      }
      hosts := hosts[name := hosts[name].(cordoned := cordoned)];
      return true;
    }

    // ----- Claims -----

    /** A ClaimVM selects a MicroVM, or is answered at once. */
    method ClaimSelect(ghost c: CallId, key: PoolKey, request: string) returns (vm: Option<nat>, prior: Option<string>)
      requires NewRpc(View(), c)
      modifies this
      ensures MaySelect(old(View()), c, key, request, prior, vm)
      ensures View() == SelectS(old(View()), c, key, request, prior, vm)
    {
      prior := FindLease(request);
      vm := OldestAvailable(key);
      if |request| > MAX_REQUEST_ID || key !in pools || prior.Some? || vm.None? {
        ghost var early := Early(View(), key, request, prior, vm);
        past := past.(calls := past.calls - {c}, answers := past.answers[c := Claimed(key, request, early.value)]);
        return;
      }
      vms := vms[vm.value := SetPhase(vms[vm.value], PreLeaseHookRunning, now)];
      past := past.(calls := past.calls[c := Claiming(vm.value, pools[key].rec, key, request)]);
    }

    /** A second claim with the request id puts its MicroVM back. */
    method Yield(ghost c: CallId, v: nat, key: PoolKey, request: string, prior: string)
      requires c in past.calls && past.calls[c].Claiming? && past.calls[c].vm == v && past.calls[c].key == key && past.calls[c].request == request
      requires v in vms && prior in leases
      modifies this
      ensures View() == YieldS(old(View()), c, prior)
    {
      vms := vms[v := SetPhase(vms[v], Available, now).(lease := "")];
      ghost var answer := Replay(View(), prior, key);
      past := past.(calls := past.calls - {c}, answers := past.answers[c := Claimed(key, request, answer)]);
    }

    /** The Lease is stored and its MicroVM leased. */
    method StoreGrant(ghost c: CallId, v: nat, threshold: Time, key: PoolKey, request: string, lease: string)
      requires c in past.calls && past.calls[c].Claiming? && past.calls[c].vm == v && past.calls[c].key == key && past.calls[c].request == request
      requires v in vms && Known(View(), key, past.calls[c].rec) && threshold == Record(View(), key, past.calls[c].rec).spec.threshold
      modifies this
      ensures View() == GrantS(old(View()), c, lease)
    {
      hide Emit, Known, Record;
      var vm := vms[v];
      var record := Lease(vm.uid, key, now, now, now + threshold, request);
      ghost var reply := Claimed(key, request, Granted(lease, vm.uid, vm.host));
      ghost var t := Tell(Grant(End(View(), c), v, lease, record), c, reply);
      leases := leases[lease := record];
      vms := vms[v := SetPhase(vm, Leased, now).(lease := lease)];
      past := past.(ledger := past.ledger[lease := Entry(record, None)], calls := past.calls - {c}, answers := past.answers[c := reply]);
      assert View() == t;
      AppendEvent(key, vm.uid, VmClaimed);
    }

    /** The hooks have succeeded: the claim commits a Lease, or yields to the one that its request id already has. */
    method ClaimCommit(ghost c: CallId, v: nat, rec: nat, key: PoolKey, request: string, lease: string)
      returns (prior: Option<string>)
      requires c in past.calls && past.calls[c] == Claiming(v, rec, key, request)
      requires Known(View(), key, rec) && FreshLease(View(), lease)
      modifies this
      ensures MayCommit(old(View()), c, prior, lease)
      ensures View() == CommitS(old(View()), c, prior, lease)
    {
      hide GrantS, YieldS, ProvisionN, IsPrior, FreshLease;
      prior := FindLease(request);
      if !(v in vms && vms[v].pool in pools) {
        past := past.(calls := past.calls - {c}, answers := past.answers[c := Claimed(key, request, NotFound)]);
        assert View() == Finish(old(View()), c, Claimed(key, request, NotFound));
        return;
      }
      if prior.Some? {
        Yield(c, v, key, request, prior.value);
        return;
      }
      var spec := (if key in pools && pools[key].rec == rec then pools[key] else gone[rec]).spec;
      GrantFields(View(), c, lease);
      StoreGrant(c, v, spec.threshold, key, request, lease);
      Provision(key, rec, OnClaimed(spec));
    }

    /** A failed hook quarantines the MicroVM, or starts its deletion. */
    method ApplyHookPolicy(v: nat, policy: Policy)
      requires v in vms
      modifies this
      ensures View() == HookPolicyS(old(View()), v, policy)
    {
      hide Emit;
      var vm := vms[v].(lease := "");
      vms := vms[v := SetPhase(vm, if policy == Quarantine then Quarantined else Deleting, now)];
      AppendEvent(vm.pool, vm.uid, VmHookFailed);
      if policy != Quarantine {
        ghost var t := Spawn(View(), DeleteWanted(v, None, ""));
        past := past.(calls := past.calls[Task(past.nextTask) := DeleteWanted(v, None, "")], nextTask := past.nextTask + 1);
        assert View() == t;
      }
    }

    method ClaimFail(ghost c: CallId, v: nat)
      requires c in past.calls && past.calls[c].Claiming? && past.calls[c].vm == v
      modifies this
      ensures View() == ClaimFailS(old(View()), c)
    {
      ghost var reply := Claimed(past.calls[c].key, past.calls[c].request, Internal);
      past := past.(calls := past.calls - {c}, answers := past.answers[c := reply]);
      if v in vms && vms[v].pool in pools {
        ApplyHookPolicy(v, pools[vms[v].pool].spec.policy);
      }
    }

    // ----- Leases -----

    /** Moves the expiry of a held Lease to the threshold from now, and answers with it. */
    method Heartbeat(l: string) returns (expires: Option<Time>)
      modifies this
      ensures View() == HeartbeatS(old(View()), l)
      ensures expires == if l in old(leases) && old(leases[l]).pool in pools then Some(leases[l].expiresAt) else None
    {
      if l !in leases || leases[l].pool !in pools {
        return None;
      }
      leases := leases[l := Renewed(leases[l], now, pools[leases[l].pool].spec.threshold)];
      past := past.(ledger := past.ledger[l := Entry(leases[l], None)]);
      return Some(leases[l].expiresAt);
    }

    /** The held Leases, of one Pool or of all. */
    method ListLeases(filter: Option<PoolKey>) returns (listed: map<string, Lease>)
      ensures forall l :: l in listed <==> l in leases && (filter.Some? ==> leases[l].pool == filter.value)
      ensures forall l | l in listed :: listed[l] == leases[l]
    {
      listed := map[];
      var left := leases.Keys;
      while left != {}
        invariant left <= leases.Keys
        invariant forall l :: l in listed <==> l in leases && l !in left && (filter.Some? ==> leases[l].pool == filter.value)
        invariant forall l | l in listed :: listed[l] == leases[l]
        decreases |left|
      {
        var l :| l in left;
        left := left - {l};
        if filter.None? || leases[l].pool == filter.value {
          listed := listed[l := leases[l]];
        }
      }
    }

    /** A release is reported once for each MicroVM. */
    method Report(v: nat, key: PoolKey)
      requires v in vms
      modifies this
      ensures View() == ReportRelease(old(View()), v, key)
    {
      hide Emit;
      if !vms[v].released {
        vms := vms[v := vms[v].(released := true)];
        AppendEvent(key, vms[v].uid, VmReleased);
      }
    }

    /** A ReleaseVM starts the deletion of the Lease's MicroVM, or is answered at once. */
    method ReleaseVM(ghost c: CallId, l: string)
      requires NewRpc(View(), c)
      modifies this
      ensures View() == ReleaseS(old(View()), c, l)
    {
      hide ReportRelease, DropLease;
      if l !in leases {
        past := past.(calls := past.calls - {c}, answers := past.answers[c := Released(l, NotFound)]);
        assert View() == Finish(old(View()), c, Released(l, NotFound));
        return;
      }
      var uid := leases[l].vm;
      if !(uid in byUid && byUid[uid] in vms) {
        ForgetLease(l, VmGone);
        past := past.(calls := past.calls - {c}, answers := past.answers[c := Released(l, Done)]);
        return;
      }
      var v := byUid[uid];
      Report(v, leases[l].pool);
      past := past.(calls := past.calls[c := DeleteWanted(v, Some(VmDeletedOnRelease), l)]);
    }

    // ----- Provisioning -----

    method DropReserved(ghost c: CallId, v: nat)
      requires c in past.calls && past.calls[c] == Placed(v)
      modifies this
      ensures View() == ProvDropS(old(View()), c)
    {
      vms := vms - {v};
      past := past.(calls := past.calls - {c});
    }

    method NameVm(ghost c: CallId, v: nat, uid: string)
      requires v in vms
      modifies this
      ensures View() == Name(old(View()), c, v, uid)
    {
      ghost var t := Name(View(), c, v, uid);
      var vm := vms[v].(uid := uid, updated := now);
      vms, byUid := vms[v := vm], byUid[uid := v];
      past := past.(uids := past.uids + {uid}, calls := past.calls[c := Call.Created(v)]);
      assert View() == t;
    }

    /** The Host has created the MicroVM; one whose Pool has gone is left to be deleted on its Host. */
    method Created(ghost c: CallId, v: nat, uid: string) returns (alive: bool)
      requires c in past.calls && past.calls[c] == Placed(v)
      modifies this
      ensures View() == ProvCreateS(old(View()), c, uid)
      ensures alive <==> Alive(old(View()), v)
    {
      hide Emit, Name;
      if !(v in vms && vms[v].pool in pools) {
        past := past.(uids := past.uids + {uid}, calls := past.calls - {c});
        return false;
      }
      var key := vms[v].pool;
      NameVm(c, v, uid);
      AppendEvent(key, uid, VmProvisioned);
      return true;
    }

    method RunCreateHooks(ghost c: CallId, v: nat) returns (alive: bool)
      requires c in past.calls && past.calls[c] == Call.Created(v)
      modifies this
      ensures View() == ProvHookS(old(View()), c)
      ensures alive <==> Alive(old(View()), v)
    {
      if !(v in vms && vms[v].pool in pools) {
        past := past.(calls := past.calls - {c});
        return false;
      }
      vms := vms[v := SetPhase(vms[v], CreateHookRunning, now)];
      past := past.(calls := past.calls[c := Hooking(v)]);
      return true;
    }

    method CreateFailed(ghost c: CallId, v: nat)
      requires c in past.calls && (past.calls[c] == Call.Created(v) || past.calls[c] == Hooking(v))
      modifies this
      ensures View() == ProvFailS(old(View()), c)
    {
      past := past.(calls := past.calls - {c});
      if v in vms && vms[v].pool in pools {
        ApplyHookPolicy(v, vms[v].createPolicy);
      }
    }

    method MakeAvailable(ghost c: CallId, v: nat) returns (alive: bool)
      requires c in past.calls && past.calls[c] == Hooking(v)
      modifies this
      ensures View() == ProvReadyS(old(View()), c)
      ensures alive <==> Alive(old(View()), v)
    {
      past := past.(calls := past.calls - {c});
      if !(v in vms && vms[v].pool in pools) {
        return false;
      }
      vms := vms[v := SetPhase(vms[v], Available, now)];
      AppendEvent(vms[v].pool, vms[v].uid, VmAvailable);
      return true;
    }

    // ----- Deletion -----

    /** Marks the MicroVM; `onHost` says that this call goes to the Host, because no other one is there. */
    method MarkDeleting(ghost c: CallId, v: nat, event: Option<EventType>, ghost release: string) returns (onHost: bool)
      requires c in past.calls && past.calls[c] == DeleteWanted(v, event, release)
      modifies this
      ensures View() == DelMarkS(old(View()), c)
      ensures onHost <==> v in old(vms) && !old(vms)[v].inFlight
    {
      hide FinishDeletion, Doomed;
      if v !in vms {
        Answered(c, release, Done);
        return false;
      }
      var was := vms[v].inFlight;
      vms := vms[v := Doomed(vms[v], event, now)];
      if was {
        Answered(c, release, Unavailable);
        return false;
      }
      past := past.(calls := past.calls[c := DeleteOnHost(v, release)]);
      return true;
    }

    method DeletionFailed(ghost c: CallId, v: nat, ghost release: string)
      requires c in past.calls && past.calls[c] == DeleteOnHost(v, release)
      modifies this
      ensures View() == DelFailS(old(View()), c)
    {
      hide FinishDeletion;
      Answered(c, release, Unavailable);
      if v in vms {
        vms := vms[v := vms[v].(inFlight := false)];
      }
    }

    /** Ends a deletion; only a ReleaseVM waits for its answer. */
    ghost method Answered(c: CallId, release: string, answer: Answer)
      modifies this`past
      ensures View() == FinishDeletion(old(View()), c, release, answer)
    {
      past := past.(calls := past.calls - {c}, answers := if c.Rpc? then past.answers[c := Released(release, answer)] else past.answers);
    }

    /** The MicroVM goes, and its Lease with it. */
    method Remove(v: nat)
      requires v in vms
      modifies this
      ensures View() == RemoveS(old(View()), v)
    {
      hide DropLease;
      var vm := vms[v];
      vms := vms - {v};
      byUid := byUid - {vm.uid};
      assert View() == Forget(old(View()), v);
      ForgetLease(vm.lease, VmGone);
    }

    /** The Host has confirmed: the MicroVM and its Lease go, and the strategy's replacement starts. */
    method Confirmed(ghost c: CallId, v: nat, ghost release: string)
      requires c in past.calls && past.calls[c] == DeleteOnHost(v, release)
      modifies this
      ensures View() == DelFinishS(old(View()), c)
    {
      hide FinishDeletion, RemoveS, Emit, ProvisionN;
      Answered(c, release, Done);
      if v !in vms {
        return;
      }
      var vm := vms[v];
      Remove(v);
      if vm.deleteEvent.Some? {
        AppendEvent(vm.pool, vm.uid, vm.deleteEvent.value);
      }
      if vm.pool in pools {
        Provision(vm.pool, pools[vm.pool].rec, OnDeleted(pools[vm.pool].spec));
      }
    }

    // ----- The tick -----

    /** Tops one Pool up to what its strategy asks for. */
    method TickPool(key: PoolKey)
      requires key in pools
      modifies this
      ensures View() == TickPoolS(old(View()), key)
    {
      var c := CountPhases(key);
      var n := TickDeficit(pools[key].spec, c.available, c.leased, c.provisioning, c.deleting);
      var short := n > 0 && !pools[key].unfilled;
      pools := pools[key := pools[key].(unfilled := false)];
      if short {
        AppendEvent(key, "", PoolSizeBelowTarget);
      }
      Provision(key, pools[key].rec, n);
    }

    /** Ends every Lease whose expiry has passed by `t`, and starts the deletion of its MicroVM. */
    method Sweep(l: string)
      requires l in leases
      modifies this
      ensures View() == SweepS(old(View()), l)
    {
      hide DropLease;
      var uid := leases[l].vm;
      ForgetLease(l, Swept);
      if uid in byUid && byUid[uid] in vms && vms[byUid[uid]].phase == Leased {
        ghost var call := DeleteWanted(byUid[uid], Some(VmDeletedDueToExpiry), "");
        past := past.(calls := past.calls[Task(past.nextTask) := call], nextTask := past.nextTask + 1);
      }
    }

    method Warn(l: string)
      requires l in leases && leases[l].pool in pools
      modifies this
      ensures View() == WarnS(old(View()), l)
    {
      hide Emit;
      var key := leases[l].pool;
      pools := pools[key := pools[key].(warned := pools[key].warned[l := leases[l].expiresAt])];
      AppendEvent(key, leases[l].vm, VmExpiringSoon);
    }

    /** Looks at one Lease: it goes if it has expired by `t`, and a warning that is due is given. */
    method SweepOne(l: string, t: Time)
      requires Inv(View()) && t <= now && l in leases
      modifies this
      ensures Inv(View()) && Ticked(old(View()), View())
      ensures vms == old(vms) && pools.Keys == old(pools).Keys && now == old(now)
      ensures leases == if old(leases)[l].expiresAt <= t then old(leases) - {l} else old(leases)
    {
      hide Inv, Ticked, SweepS, WarnS, Next, Due, VmOf, Logged;
      ghost var s := View();
      Still(s);
      Held(s, l);
      if leases[l].expiresAt <= t {
        SweepFields(s, l);
        SweepNext(s, l, t);
        Sweep(l);
        Onward(s, s, BatterySections.Sweep(l, t), View());
      } else if Due(leases[l], pools[leases[l].pool], l, t) {
        WarnFields(s, l);
        WarnNext(s, l, t);
        Warn(l);
        Onward(s, s, BatterySections.Warn(l, t), View());
      }
    }

    /** The first part of a tick: every Lease that has expired by `t` goes, and no other. */
    method SweepLeases(t: Time)
      requires Inv(View()) && t <= now
      modifies this
      ensures Inv(View()) && Ticked(old(View()), View()) && vms == old(vms) && pools.Keys == old(pools).Keys
      ensures forall l :: l in leases <==> l in old(leases) && old(leases)[l].expiresAt > t
    {
      hide Inv, Ticked;
      Still(View());
      var left := leases.Keys;
      while left != {}
        invariant Ticked(old(View()), View()) && Inv(View()) && t <= now && vms == old(vms) && pools.Keys == old(pools).Keys
        invariant left <= leases.Keys <= old(leases).Keys && forall l | l in leases :: leases[l] == old(leases)[l]
        invariant forall l | l in old(leases) && l !in leases :: old(leases)[l].expiresAt <= t
        invariant forall l | l in leases && l !in left :: leases[l].expiresAt > t
        decreases |left|
      {
        var l :| l in left;
        left := left - {l};
        ghost var s := View();
        SweepOne(l, t);
        TickedTrans(old(View()), s, View());
      }
    }

    /** A deletion that its Host refused is wanted again. */
    method RetryOne(v: nat)
      requires Inv(View()) && RetryDue(vms, v)
      modifies this
      ensures Inv(View()) && Ticked(old(View()), View()) && View() == Spawn(old(View()), DeleteWanted(v, None, "")) && vms == old(vms)
      ensures Wanted(past.calls, v) && forall w | Wanted(old(past).calls, w) :: Wanted(past.calls, w)
    {
      hide Inv, Ticked, Next, RetryDue;
      ghost var s := View();
      Still(s);
      RetryNext(s, v);
      FreshTask(s);
      past := past.(calls := past.calls[Task(past.nextTask) := DeleteWanted(v, None, "")], nextTask := past.nextTask + 1);
      Onward(s, s, Retry(v), View());
      WantedNow(s.calls, Task(s.nextTask), v);
    }

    /** The MicroVMs whose deletion is due again. */
    method DueAgain() returns (pending: set<nat>)
      ensures forall v :: v in pending <==> RetryDue(vms, v)
    {
      pending := {};
      var left := vms.Keys;
      while left != {}
        invariant left <= vms.Keys && forall v :: v in pending <==> v !in left && RetryDue(vms, v)
        decreases |left|
      {
        var v :| v in left;
        left := left - {v};
        if RetryDue(vms, v) {
          pending := pending + {v};
        }
      }
    }

    /** The last part: the deletions are wanted again. */
    method RetryDeletions(pending: set<nat>)
      requires Inv(View()) && forall v | v in pending :: RetryDue(vms, v)
      modifies this
      ensures Inv(View()) && Ticked(old(View()), View()) && OnlyCalls(old(View()), View())
      ensures forall v | v in pending :: Wanted(past.calls, v)
    {
      hide Inv, Ticked, RetryDue, Wanted, OnlyCalls, Spawn;
      Still(View());
      NoCalls(View());
      var left := pending;
      while left != {}
        invariant left <= pending && vms == old(vms) && OnlyCalls(old(View()), View())
        invariant Inv(View()) && Ticked(old(View()), View())
        invariant forall v | v in pending && v !in left :: Wanted(past.calls, v)
        decreases |left|
      {
        var v :| v in left;
        left := left - {v};
        ghost var s := View();
        RetryOne(v);
        SpawnOnly(old(View()), s, DeleteWanted(v, None, ""));
        TickedTrans(old(View()), s, View());
      }
    }

    /** The second part: every Pool is topped up, once. */
    method TopUp() returns (ghost order: seq<PoolKey>)
      requires Inv(View())
      modifies this
      ensures Inv(View()) && Ticked(old(View()), View()) && leases == old(leases) && StillTracked(old(vms), vms)
      ensures EachOnce(order, old(pools).Keys) && View() == TickPools(old(View()), order)
    {
      hide Inv, Ticked, Next, TickPoolS;
      Still(View());
      order := [];
      var left := pools.Keys;
      while left != {}
        invariant left <= pools.Keys == old(pools).Keys && leases == old(leases) && StillTracked(old(vms), vms)
        invariant Inv(View()) && Ticked(old(View()), View())
        invariant EachOnce(order, old(pools).Keys - left) && View() == TickPools(old(View()), order)
        decreases |left|
      {
        var key :| key in left;
        left := left - {key};
        ghost var s := View();
        TickPoolNext(s, key);
        ToppedUp(s, key);
        TickPool(key);
        Onward(old(View()), s, BatterySections.TickPool(key), View());
        assert (order + [key])[..|order|] == order;
        order := order + [key];
      }
      assert old(pools).Keys - left == old(pools).Keys;
    }

    /**
     * One pass of the control loop, at a time it read before it took the lock. It ends the Leases that have expired by then
     * and no other, tops up every Pool once, and then wants again the deletions that were due again.
     */
    method Tick(t: Time) returns (ghost swept: State, ghost topped: State, ghost order: seq<PoolKey>)
      requires Inv(View()) && t <= now
      modifies this
      ensures Inv(View()) && Ticked(old(View()), View())
      ensures Ticked(old(View()), swept) && swept.vms == old(vms)
      ensures forall l :: l in swept.leases <==> l in old(leases) && old(leases)[l].expiresAt > t
      ensures EachOnce(order, old(pools).Keys) && topped == TickPools(swept, order) && topped.leases == swept.leases
      ensures OnlyCalls(topped, View()) && forall v | RetryDue(old(vms), v) :: Wanted(past.calls, v)
    {
      hide Inv, Ticked, Wanted, TickPools, EachOnce, OnlyCalls;
      SweepLeases(t);
      swept := View();
      var pending := DueAgain();
      order := TopUp();
      topped := View();
      TickedTrans(old(View()), swept, topped);
      RetryDeletions(pending);
      TickedTrans(old(View()), topped, View());
    }

    // ----- Deleting a Pool -----

    /** The MicroVMs of the Pool, and how many of them are leased or being claimed. */
    method Owned(key: PoolKey) returns (ids: set<nat>, leased: nat)
      ensures ids == PoolVMs(vms, key)
      ensures leased > 0 <==> InUse(vms, key)
    {
      ids, leased := {}, 0;
      var left := vms.Keys;
      while left != {}
        invariant left <= vms.Keys
        invariant forall v :: v in ids <==> v in vms && v !in left && vms[v].pool == key
        invariant leased > 0 <==> exists v :: v in vms && v !in left && vms[v].pool == key && vms[v].phase in LEASED
        decreases |left|
      {
        var v :| v in left;
        left := left - {v};
        if vms[v].pool == key {
          ids := ids + {v};
          if vms[v].phase in LEASED {
            leased := leased + 1;
          }
        }
      }
    }

    method MarkOne(v: nat, key: PoolKey)
      requires v in vms
      modifies this
      ensures View() == DrainOne(old(View()), key, v)
    {
      hide Emit;
      var uid := vms[v].uid;
      vms := vms[v := Marked(vms[v], now)];
      if uid != "" {
        AppendEvent(key, uid, VmDeletedOnPoolDelete);
      }
    }

    /** Marks the MicroVMs in order, and drops the Leases they carry. */
    method MarkOwned(key: PoolKey, order: seq<nat>) returns (ghost ended: set<string>)
      requires Inv(View()) && Linked(vms, past.ledger) && InOrder(order, PoolVMs(vms, key))
      modifies this
      ensures ended <= LeasesOf(old(leases), key) && View() == Draining(old(View()), key, order, ended)
    {
      hide Inv, Linked, Draining, DrainOne, DropLease;
      ghost var s := View();
      ended := {};
      DrainStart(s, key);
      var i := 0;
      while i < |order|
        invariant 0 <= i <= |order| && ended <= LeasesOf(s.leases, key)
        invariant View() == Draining(s, key, order[..i], ended)
      {
        var v := order[i];
        assert v in order && v !in order[..i] && order[..i + 1] == order[..i] + [v];
        DrainMark(s, key, order[..i], ended, v);
        DrainFrame(s, key, order[..i], ended);
        var l := vms[v].lease;
        if l in leases {
          CarriedLease(s, v);
          Held(s, l);
          DrainDrop(s, key, order[..i], ended, l);
          ForgetLease(l, PoolGone);
          ended := ended + {l};
          DrainMark(s, key, order[..i], ended, v);
        }
        MarkOne(v, key);
        i := i + 1;
      }
      assert order[..i] == order;
    }

    method DropOne(key: PoolKey, l: string, ghost s: State, ghost order: seq<nat>, ghost dropped: set<string>)
      requires Inv(s) && View() == Draining(s, key, order, dropped) && l in leases && leases[l].pool == key
      modifies this
      ensures View() == Draining(s, key, order, dropped + {l}) && leases == s.leases - (dropped + {l})
    {
      hide Inv, Draining, DropLease;
      DrainFrame(s, key, order, dropped);
      DrainFrame(s, key, order, dropped + {l});
      Held(s, l);
      DrainDrop(s, key, order, dropped, l);
      ForgetLease(l, PoolGone);
    }

    /** Drops what Leases of the Pool are left. */
    method DropRest(key: PoolKey, ghost s: State, ghost order: seq<nat>, ghost ended: set<string>)
      requires Inv(s) && ended <= LeasesOf(s.leases, key) && View() == Draining(s, key, order, ended)
      modifies this
      ensures View() == Draining(s, key, order, LeasesOf(s.leases, key))
    {
      hide Inv, Draining, DropLease;
      DrainFrame(s, key, order, ended);
      ghost var dropped := ended;
      var left := leases.Keys;
      while left != {}
        invariant left <= leases.Keys && dropped <= LeasesOf(s.leases, key) && View() == Draining(s, key, order, dropped)
        invariant leases == s.leases - dropped && forall l | l in leases && l !in left :: leases[l].pool != key
        decreases |left|
      {
        var l :| l in left;
        left := left - {l};
        if leases[l].pool == key {
          DropOne(key, l, s, order, dropped);
          dropped := dropped + {l};
        }
      }
      assert dropped == LeasesOf(s.leases, key);
    }

    /** The Pool goes, and the deletions on the Hosts begin. */
    method Abandon(key: PoolKey, ghost order: seq<nat>)
      requires key in pools
      modifies this
      ensures View() == DrainEnd(old(View()), key, order)
    {
      hide SpawnAll, PoolDeletions;
      gone := gone[pools[key].rec := pools[key]];
      pools := pools - {key};
      ghost var t := SpawnAll(View(), PoolDeletions(order));
      past := past.(calls := t.calls, nextTask := t.nextTask);
    }

    method DeletePool(key: PoolKey, force: bool) returns (outcome: Outcome, order: seq<nat>)
      requires Inv(View()) && Linked(vms, past.ledger)
      modifies this
      ensures outcome == if key !in old(pools) then NoPool else if !force && InUse(old(vms), key) then StillLeased else Drained
      ensures outcome != Drained ==> View() == old(View())
      ensures outcome == Drained ==>
                InOrder(order, PoolVMs(old(vms), key)) && View() == DeletePoolS(old(View()), key, order)
    {
      hide Inv, Linked, Draining, DrainEnd, DeletePoolS, InOrder, InUse, PoolVMs;
      if key !in pools {
        return NoPool, [];
      }
      var ids, leased := Owned(key);
      if leased > 0 && !force {
        return StillLeased, [];
      }
      order := Ascending(ids);
      ghost var s := View();
      ghost var ended := MarkOwned(key, order);
      DropRest(key, s, order, ended);
      DrainFrame(s, key, order, LeasesOf(s.leases, key));
      Abandon(key, order);
      DrainDone(s, key, order);
      return Drained, order;
    }

  }
}
