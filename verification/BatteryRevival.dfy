/** Exactly which sections take a MicroVM out of DELETING. */
module BatteryRevival {
  import opened BatteryTypes
  import opened BatterySections
  import opened BatteryInvariant
  import opened BatteryRuns
  import opened BatteryHistory
  import opened BatteryTheorems
  import opened BatteryFields
  import opened BatteryShape
  import opened BatteryOrder

  /** A call that still works on the MicroVM although it is on its way out, and that finds a Pool of its key. */
  predicate Revives(s: State, step: Step, v: nat) {
    && Alive(s, v)
    && match step
       case ProvHook(c) => c in s.calls && s.calls[c].vm == v
       case ProvReady(c) => c in s.calls && s.calls[c].vm == v
       case ProvFail(c) => c in s.calls && s.calls[c].vm == v && s.vms[v].createPolicy == Quarantine
       case ClaimCommit(c, _, _) => c in s.calls && s.calls[c].vm == v
       case ClaimFail(c) => c in s.calls && s.calls[c].vm == v && s.pools[s.vms[v].pool].spec.policy == Quarantine
       case _ => false
  }

  ghost predicate Exact(s: State, step: Step, t: State, v: nat) {
    v in s.vms && s.vms[v].phase == Deleting && v in t.vms ==> (t.vms[v].phase != Deleting <==> Revives(s, step, v))
  }

  lemma SelectExact(s: State, step: Step, t: State, v: nat)
    requires Next(s, step, t) && step.ClaimSelect?
    ensures Exact(s, step, t, v)
  {
    hide MayAdmin, DoAdmin, MayRoutine, DoRoutine, MayTick, DoTick, SelectS, Early, IsPrior;
    if Early(s, step.key, step.request, step.prior, step.vm).Some? {
      EarlyFields(s, step.c, step.key, step.request, step.prior, step.vm);
    } else {
      TakeFields(s, step.c, step.key, step.request, step.prior, step.vm);
    }
  }

  lemma CommitExact(s: State, step: Step, t: State, v: nat)
    requires Inv(s) && Next(s, step, t) && step.ClaimCommit?
    ensures Exact(s, step, t, v)
  {
    hide MayAdmin, DoAdmin, MayRoutine, DoRoutine, MayTick, DoTick, Inv, GrantS, YieldS, ProvisionN, IsPrior, FreshLease, Grew;
    if Grants(s, step) {
      GrantFields(s, step.c, step.lease);
      GrantBatch(s, step, t);
      GrewKeeps(GrantS(s, step.c, step.lease), t, BatchKey(s, step), Batch(s, step), v);
    } else if Alive(s, s.calls[step.c].vm) {
      YieldFields(s, step.c, step.prior.value);
    }
  }

  lemma GrewKeeps(s: State, t: State, key: PoolKey, n: nat, v: nat)
    requires Grew(s, t, key, n)
    ensures v in s.vms ==> v in t.vms && t.vms[v] == s.vms[v]
    ensures v <= s.nextVM && v in t.vms ==> v in s.vms
  {
  }

  lemma PolicyPhase(s: State, v: nat, policy: Policy, w: nat)
    requires v in s.vms && w in s.vms
    ensures var t := HookPolicyS(s, v, policy);
            w in t.vms && t.vms[w].phase == if w != v then s.vms[w].phase else if policy == Quarantine then Quarantined else Deleting
  {
    hide Emit;
  }

  lemma ClaimFailPhase(s: State, c: CallId, w: nat)
    requires c in s.calls && s.calls[c].Claiming? && w in s.vms
    ensures var v := s.calls[c].vm;
            var t := ClaimFailS(s, c);
            && w in t.vms
            && t.vms[w].phase == if w != v || !Alive(s, v) then s.vms[w].phase
                                 else if s.pools[s.vms[v].pool].spec.policy == Quarantine then Quarantined else Deleting
  {
    hide HookPolicyS;
    var v := s.calls[c].vm;
    var t := Finish(s, c, Claimed(s.calls[c].key, s.calls[c].request, Internal));
    assert t.vms == s.vms;
    if Alive(s, v) {
      PolicyPhase(t, v, s.pools[s.vms[v].pool].spec.policy, w);
    }
  }

  lemma ProvFailPhase(s: State, c: CallId, w: nat)
    requires c in s.calls && (s.calls[c].Created? || s.calls[c].Hooking?) && w in s.vms
    ensures var v := s.calls[c].vm;
            var t := ProvFailS(s, c);
            && w in t.vms
            && t.vms[w].phase == if w != v || !Alive(s, v) then s.vms[w].phase
                                 else if s.vms[v].createPolicy == Quarantine then Quarantined else Deleting
  {
    hide HookPolicyS;
    var v := s.calls[c].vm;
    assert End(s, c).vms == s.vms;
    if Alive(s, v) {
      PolicyPhase(End(s, c), v, s.vms[v].createPolicy, w);
    }
  }

  lemma FailExact(s: State, step: Step, t: State, v: nat)
    requires Next(s, step, t) && (step.ClaimFail? || step.ProvFail?)
    ensures Exact(s, step, t, v)
  {
    hide MayAdmin, DoAdmin, MayTick, DoTick, ClaimFailS, ProvFailS;
    if v in s.vms {
      match step
      case ClaimFail(c) => ClaimFailPhase(s, c, v);
      case ProvFail(c) => ProvFailPhase(s, c, v);
    }
  }

  lemma LeasingExact(s: State, step: Step, t: State, v: nat)
    requires Inv(s) && Next(s, step, t) && (step.Heartbeat? || step.Release?)
    ensures Exact(s, step, t, v)
  {
    hide MayAdmin, DoAdmin, MayRoutine, DoRoutine, MayTick, DoTick, Inv, HeartbeatS, ReleaseS;
    match step
    case Heartbeat(l) => HeartbeatFields(s, l);
    case Release(c, l) =>
      if l in s.leases {
        Held(s, l);
        ReleaseFields(s, c, l);
      } else {
        UnknownFields(s, c, l);
      }
  }

  lemma ProvisioningExact(s: State, step: Step, t: State, v: nat)
    requires Next(s, step, t) && (step.ProvDrop? || step.ProvCreate? || step.ProvHook? || step.ProvReady?)
    ensures Exact(s, step, t, v)
  {
    hide MayAdmin, DoAdmin, MayLease, DoLease, MayTick, DoTick;
    hide ProvDropS, ProvCreateS, ProvHookS, ProvReadyS, Logged, PoolsLike;
    match step
    case ProvDrop(c) => ProvDropFields(s, c);
    case ProvCreate(c, uid) => ProvCreateFields(s, c, uid);
    case ProvHook(c) => ProvHookFields(s, c);
    case ProvReady(c) => ProvReadyFields(s, c);
  }

  lemma DeletionExact(s: State, step: Step, t: State, v: nat)
    requires Next(s, step, t) && (step.DelMark? || step.DelFail? || step.DelFinish?) && !Buries(s, step)
    ensures Exact(s, step, t, v)
  {
    hide MayAdmin, DoAdmin, MayLease, DoLease, MayTick, DoTick;
    hide DelMarkS, DelFailS, DelFinishS, Buried, ProvisionN, Doomed, PoolsLike;
    match step
    case DelMark(c) => DelMarkFields(s, c);
    case DelFail(c) => DelFailFields(s, c);
    case DelFinish(c) => DelFinishFields(s, c);
  }

  lemma BatchExact(s: State, step: Step, t: State, v: nat)
    requires Inv(s) && Next(s, step, t) && (Buries(s, step) || step.TickPool?)
    ensures Exact(s, step, t, v)
  {
    hide Inv, Next, Grew, Batch, BatchKey, Buried, Looked, Numbers;
    var m := Settled(s, step, t);
    SettledPhases(s, step, t, v);
    BatchShape(s, step, t);
    GrewKeeps(m, t, BatchKey(s, step), Batch(s, step), v);
    if v in s.vms {
      Numbered(s, v);
    }
  }

  lemma SettledPhases(s: State, step: Step, t: State, v: nat)
    requires Next(s, step, t) && (Buries(s, step) || step.TickPool?)
    ensures var m := Settled(s, step, t);
            m.nextVM == s.nextVM && (v in s.vms && v in m.vms ==> m.vms[v].phase == s.vms[v].phase)
  {
    hide MayAdmin, DoAdmin, MayLease, DoLease, DoRoutine, DoTick, Buried, Looked;
    if Buries(s, step) {
      BuriedFields(s, step.c);
    } else {
      TickPoolFields(s, step.key);
    }
  }

  lemma SamePhases(s: State, step: Step, t: State, v: nat)
    requires Next(s, step, t) && (Admin(step) || Ticking(step)) && !step.TickPool?
    requires forall w | w in t.vms && w in s.vms :: t.vms[w].phase == s.vms[w].phase || t.vms[w].phase == Deleting
    ensures Exact(s, step, t, v)
  {
    hide Next;
  }

  lemma AdminExact(s: State, step: Step, t: State, v: nat)
    requires Inv(s) && Next(s, step, t) && Admin(step)
    ensures Exact(s, step, t, v)
  {
    hide MayLease, DoLease, MayRoutine, DoRoutine, MayTick, DoTick;
    hide Inv, InUse, Accepted, Named, Occupied, DeletePoolS, LoggedDeletions, Exact;
    if step.DeletePool? {
      NumbersOk(s);
      InOrderTracked(s, step.key, step.order);
      DeletePoolFields(s, step.key, step.order);
    }
    SamePhases(s, step, t, v);
  }

  lemma TickExact(s: State, step: Step, t: State, v: nat)
    requires Next(s, step, t) && Ticking(step) && !step.TickPool?
    ensures Exact(s, step, t, v)
  {
    hide MayAdmin, DoAdmin, MayLease, DoLease, MayRoutine, DoRoutine, SweepS, WarnS, DueWarning, Exact;
    if step.Sweep? {
      SweepFields(s, step.lease);
    } else if step.Warn? {
      WarnFields(s, step.lease);
    }
    SamePhases(s, step, t, v);
  }

  /** A section takes a MicroVM out of DELETING if and only if it is one that revives it. */
  lemma RevivedExactly(s: State, step: Step, t: State, v: nat)
    requires Inv(s) && Next(s, step, t) && v in s.vms && s.vms[v].phase == Deleting && v in t.vms
    ensures t.vms[v].phase != Deleting <==> Revives(s, step, v)
  {
    hide Inv, Next, Revives;
    assert Exact(s, step, t, v) by {
      hide Exact, Buries;
      if step.ClaimSelect? {
        SelectExact(s, step, t, v);
      } else if step.ClaimCommit? {
        CommitExact(s, step, t, v);
      } else if step.ClaimFail? || step.ProvFail? {
        FailExact(s, step, t, v);
      } else if Leasing(step) {
        LeasingExact(s, step, t, v);
      } else if Buries(s, step) || step.TickPool? {
        BatchExact(s, step, t, v);
      } else if step.DelMark? || step.DelFail? || step.DelFinish? {
        DeletionExact(s, step, t, v);
      } else if Routine(step) {
        ProvisioningExact(s, step, t, v);
      } else if Admin(step) {
        AdminExact(s, step, t, v);
      } else {
        TickExact(s, step, t, v);
      }
    }
  }

  /** When no Pool was created over tracked MicroVMs of its key, there is no such section. */
  lemma TidyRevivesNothing(s: State, step: Step, t: State, v: nat)
    requires Inv(s) && Tidy(s.vms, s.calls, s.pools) && Next(s, step, t) && v in s.vms && s.vms[v].phase == Deleting
    ensures !Revives(s, step, v)
  {
    hide Inv;
  }

  /** In any run, a MicroVM that is on its way out stays so for as long as it is tracked and nothing revives it. */
  lemma {:induction false} StaysDeleting(states: seq<State>, steps: seq<Step>, placement: Placement, i: nat, j: nat, v: nat)
    requires Run(states, steps) && states[0] == Init(placement) && i <= j < |states|
    requires v in states[i].vms && states[i].vms[v].phase == Deleting && v in states[j].vms
    requires forall k | i <= k < j :: !Revives(states[k], steps[k], v)
    ensures states[j].vms[v].phase == Deleting
    decreases j
  {
    hide Inv, Next, Revives;
    if i < j {
      var k := j - 1;
      assert NextAt(states, steps, k);
      RunInv(states, steps, placement, i);
      RunInv(states, steps, placement, k);
      RunGrows(states, steps, placement, i, k);
      StepGrows(states[k], steps[k], states[j]);
      Numbered(states[i], v);
      StaysDeleting(states, steps, placement, i, k, v);
      RevivedExactly(states[k], steps[k], states[j], v);
    }
  }

  /** In a clean run DELETING is final: a MicroVM that is on its way out stays so for as long as it is tracked. */
  lemma DeletingIsFinal(states: seq<State>, steps: seq<Step>, placement: Placement, i: nat, j: nat, v: nat)
    requires CleanRun(states, steps) && states[0] == Init(placement) && i <= j < |states|
    requires v in states[i].vms && states[i].vms[v].phase == Deleting && v in states[j].vms
    ensures states[j].vms[v].phase == Deleting
  {
    hide Inv, Next, Clean, Tidy, Revives;
    var k := i;
    while k < j
      invariant i <= k <= j
      invariant forall m | i <= m < k :: !Revives(states[m], steps[m], v)
    {
      assert NextAt(states, steps, k);
      RunOrder(states, steps, placement, k);
      if v in states[k].vms {
        StaysDeleting(states, steps, placement, i, k, v);
        TidyRevivesNothing(states[k], steps[k], states[k + 1], v);
      } else {
        Untracked(states[k], steps[k], v);
      }
      k := k + 1;
    }
    StaysDeleting(states, steps, placement, i, j, v);
  }

  lemma Untracked(s: State, step: Step, v: nat)
    requires v !in s.vms
    ensures !Revives(s, step, v)
  {
  }

  // ----- A run in which it happens -----

  const KEY := PoolKey("p", "n")
  const SPEC := Spec(1, ImmediateOnLease, None, ["h"], DeleteAndReplace, 0, 2)

  /** A running manager with one Host and one Pool of size one. */
  const READY: State :=
    Init(LeastVMs).(
      running := true,
      hosts := map["h" := Host("a", false, true)],
      pools := map[KEY := Pool(KEY, 0, SPEC, 0, 0, true, map[])],
      nextRec := 1)

  lemma ReadyIsReached() returns (states: seq<State>, steps: seq<Step>)
    ensures Run(states, steps) && states[0] == Init(LeastVMs) && states[|steps|] == READY
  {
    var a := Init(LeastVMs);
    var b := a.(running := true);
    var c := AddHostS(b, "h", "a", true);
    steps := [Start, AddHost("h", "a", true), CreatePool(KEY, SPEC)];
    states := [a, b, c, READY];
    assert NextAt(states, steps, 0) && NextAt(states, steps, 1);
    assert NextAt(states, steps, 2) by {
      assert c.hosts == map["h" := Host("a", false, true)];
      assert CreatePoolS(c, KEY, SPEC) == READY;
    }
  }

  lemma NoMembers(key: PoolKey, phases: set<Phase>)
    ensures Count(map[], key, phases) == 0
  {
    assert Members(map[], key, phases) == {};
  }

  lemma OneWanted()
    ensures Deficit(READY, KEY) == 1
  {
    hide Count;
    NoMembers(KEY, {Available});
    NoMembers(KEY, LEASED);
    NoMembers(KEY, PROVISIONING);
    NoMembers(KEY, {Deleting});
  }

  lemma OneHost(s: State)
    requires s.hosts == READY.hosts && s.placement == LeastVMs && s.vms == map[]
    ensures Pick(s, READY.pools[KEY].(unfilled := false)) == Some("h")
  {
    assert Candidates(s.hosts, ["h"]) == ["h"] by {
      assert ["h"][..0] == [];
    }
  }

  /** The tick places the Pool's one MicroVM. */
  lemma OnePlaced()
    ensures var t := TickPoolS(READY, KEY);
            && t == READY.(pools := t.pools, vms := map[1 := NewVM(KEY, DeleteAndReplace, "h", 0)], nextVM := 1,
                           calls := map[Task(0) := Placed(1)], nextTask := 1, log := t.log)
            && PoolsLike(READY.pools, t.pools)
  {
    hide Deficit, Pick, Emit;
    OneWanted();
    var p := READY.pools[KEY].(unfilled := false);
    var s := SetPool(READY, KEY, p);
    OneHost(s);
    var t := Place(s, KEY, 0, "h");
    assert s.pools == map[KEY := p] && Record(s, KEY, 0) == p;
    assert Reserve(s, KEY, 0, 1) == Reserve(t, KEY, 0, 0) == t;
    assert TickPoolS(READY, KEY) == Emit(t, KEY, "", PoolReplenishing);
  }

  lemma ProvCreateNext(s: State, c: CallId, uid: string)
    requires c in s.calls && s.calls[c].Placed? && uid != "" && uid !in s.uids
    ensures Next(s, ProvCreate(c, uid), ProvCreateS(s, c, uid))
  {
    hide ProvCreateS, MayAdmin, DoAdmin, MayLease, DoLease, MayTick, DoTick;
  }

  /** Its Host names it while its provisioning is in flight. */
  lemma OneNamed() returns (t: State, u: State)
    ensures Next(READY, TickPool(KEY), t) && Next(t, ProvCreate(Task(0), "u"), u)
    ensures Task(0) in u.calls && u.calls[Task(0)] == Created(1) && u.vms.Keys == {1} && u.vms[1].pool == KEY
    ensures KEY in u.pools && u.hosts == READY.hosts
  {
    hide Next, TickPoolS, ProvCreateS;
    OnePlaced();
    t := TickPoolS(READY, KEY);
    u := ProvCreateS(t, Task(0), "u");
    TickPoolNext(READY, KEY);
    ProvCreateNext(t, Task(0), "u");
    ProvCreateFields(t, Task(0), "u");
  }

  lemma {:induction false} Extend(states: seq<State>, steps: seq<Step>, step: Step, t: State)
    requires Run(states, steps) && Next(states[|steps|], step, t)
    ensures Run(states + [t], steps + [step])
  {
    hide Next;
    forall i: nat | i < |steps + [step]| ensures NextAt(states + [t], steps + [step], i) {
      if i < |steps| {
        assert NextAt(states, steps, i);
      }
    }
  }

  /**
   * A run from the start in which a MicroVM leaves DELETING: its Pool is deleted while the MicroVM is provisioned,
   * and created again before the provisioning looks.
   */
  lemma RevivalHappens() returns (states: seq<State>, steps: seq<Step>)
    ensures Run(states, steps) && states[0] == Init(LeastVMs) && |states| >= 3
    ensures 1 in states[|states| - 3].vms && states[|states| - 3].vms[1].phase == Deleting
    ensures 1 in states[|states| - 1].vms && states[|states| - 1].vms[1].phase == CreateHookRunning
  {
    hide Next, Inv, InOrder;
    states, steps := ReadyIsReached();
    var t, u := OneNamed();
    Extend(states, steps, TickPool(KEY), t);
    states, steps := states + [t], steps + [TickPool(KEY)];
    Extend(states, steps, ProvCreate(Task(0), "u"), u);
    states, steps := states + [u], steps + [ProvCreate(Task(0), "u")];
    RunInv(states, steps, LeastVMs, |steps|);
    assert InOrder([1], PoolVMs(u.vms, KEY)) by {
      OneInOrder(u);
    }
    var v, w, x := RecreationRevives(u, Task(0), SPEC, [1]);
    Extend(states, steps, DeletePool(KEY, true, [1]), v);
    states, steps := states + [v], steps + [DeletePool(KEY, true, [1])];
    Extend(states, steps, CreatePool(KEY, SPEC), w);
    states, steps := states + [w], steps + [CreatePool(KEY, SPEC)];
    Extend(states, steps, ProvHook(Task(0)), x);
    states, steps := states + [x], steps + [ProvHook(Task(0))];
  }

  lemma OneInOrder(s: State)
    requires s.vms.Keys == {1} && s.vms[1].pool == KEY
    ensures InOrder([1], PoolVMs(s.vms, KEY))
  {
  }
}
