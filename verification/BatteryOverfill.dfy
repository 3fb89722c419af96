/**
 * How far a Pool with IMMEDIATE_ON_LEASE may fill: the tick leaves the MicroVMs that are being claimed out of its count, and
 * each of them comes back or is replaced.
 */
module BatteryOverfill {
  import opened BatteryTypes
  import opened BatterySections
  import opened BatteryInvariant
  import opened BatteryRuns
  import opened BatteryTheorems
  import opened BatteryFields
  import opened BatteryShape
  import opened BatteryOrder
  import opened BatteryPopulation
  import opened BatteryGains

  const FILLING: set<Phase> := {Available} + PROVISIONING + {PreLeaseHookRunning}

  /** The MicroVMs that are available, claiming or provisioning. */
  ghost function Filling(s: State, key: PoolKey): nat {
    Count(s.vms, key, FILLING)
  }

  ghost function Claiming(s: State, key: PoolKey): nat {
    Count(s.vms, key, {PreLeaseHookRunning})
  }

  ghost predicate Immediate(s: State, key: PoolKey) {
    key in s.pools && s.pools[key].spec.strategy == ImmediateOnLease
  }

  lemma FillingParts(s: State, key: PoolKey)
    requires Immediate(s, key)
    ensures Filling(s, key) == Population(s, key) + Claiming(s, key)
    ensures Deficit(s, key) == Positive(s.pools[key].spec.size - Population(s, key))
  {
    hide Count;
    CountUnion(s.vms, key, {Available} + PROVISIONING, {PreLeaseHookRunning});
    CountUnion(s.vms, key, {Available}, PROVISIONING);
  }

  /**
   * The requirement that the tick provisions the size less the available, claiming and provisioning MicroVMs (BA-075) is
   * met exactly when no MicroVM is claiming or the tick provisions nothing.
   */
  lemma DeficitAsRequired(s: State, key: PoolKey)
    requires Immediate(s, key)
    ensures Deficit(s, key) == Positive(s.pools[key].spec.size - Filling(s, key)) <==>
            Claiming(s, key) == 0 || Deficit(s, key) == 0
  {
    hide Population, Filling, Claiming, Deficit;
    FillingParts(s, key);
  }

  // ----- Which section overfills -----

  /** The tick places MicroVMs for the Pool while another is being claimed. */
  ghost predicate TickOverfills(s: State, step: Step, key: PoolKey) {
    && step == TickPool(key) && key in s.pools && s.running && AnyEligible(s, s.pools[key].spec)
    && Deficit(s, key) > 0 && Claiming(s, key) > 0
  }

  /** A grant is replaced at once. */
  ghost predicate Replaced(s: State, step: Step) {
    && Grants(s, step) && s.running
    && var call := s.calls[step.c];
       && Known(s, call.key, call.rec) && Record(s, call.key, call.rec).spec.strategy == ImmediateOnLease
       && AnyEligible(s, Record(s, call.key, call.rec).spec)
  }

  /** A MicroVM of the Pool is taken out of DELETING and counts again, or a grant of it counts with its replacement. */
  ghost predicate Returns(s: State, step: Step, key: PoolKey) {
    && Edits(step) && !step.DelMark? && step.c in s.calls && s.calls[step.c].vm in s.vms && key in s.pools
    && s.vms[s.calls[step.c].vm].pool == key && s.vms[s.calls[step.c].vm].phase == Deleting
    && (Grants(s, step) ==> Replaced(s, step))
  }

  ghost predicate Overfills(s: State, step: Step, key: PoolKey) {
    TickOverfills(s, step, key) || (Returns(s, step, key) && Filling(s, key) + 1 > s.pools[key].spec.size)
  }

  /** The sum rises by one if a MicroVM returns, and otherwise does not rise. */
  ghost predicate FillChange(s: State, step: Step, t: State, key: PoolKey) {
    if Returns(s, step, key) then Filling(t, key) == Filling(s, key) + 1 else Filling(t, key) <= Filling(s, key)
  }

  lemma EditFill(s: State, step: Step, m: State, key: PoolKey)
    requires Edited(s, step, m) && key in s.pools
    requires !step.DelMark? && s.calls[step.c].vm in s.vms ==> s.vms[s.calls[step.c].vm].phase != Quarantined
    ensures var v := s.calls[step.c].vm;
            Count(m.vms, key, FILLING) == Count(s.vms, key, FILLING) +
            (if v in s.vms && s.vms[v].pool == key then In(m.vms[v], key, FILLING) - In(s.vms[v], key, FILLING) else 0)
  {
    hide Count;
    var v := s.calls[step.c].vm;
    if v in s.vms && (step.DelMark? || Alive(s, v)) {
      EditCount(s.vms, m.vms, v, key, FILLING);
    }
  }

  lemma EditFills(s: State, step: Step, t: State, key: PoolKey)
    requires Inv(s) && Next(s, step, t) && Edits(step) && !Grants(s, step) && key in s.pools
    ensures FillChange(s, step, t, key)
  {
    hide Inv, Next, Count;
    EditCalls(s, step, t);
    if step.ClaimCommit? {
      CommitEdits(s, step, t);
    } else {
      RoutineEdits(s, step, t);
    }
    if !step.DelMark? && s.calls[step.c].vm in s.vms {
      EditFinds(s, step, t);
      EditPhase(s, step, t);
    }
    EditFill(s, step, t, key);
  }

  /** A call finds its MicroVM where it works on it, or on its way out. */
  lemma EditPhase(s: State, step: Step, t: State)
    requires Inv(s) && Next(s, step, t) && Edits(step) && !step.DelMark?
    ensures step.c in s.calls
    ensures s.calls[step.c].vm in s.vms ==>
              var phase := s.vms[s.calls[step.c].vm].phase;
              if step.ClaimCommit? then phase in {PreLeaseHookRunning, Deleting} else phase in {Provisioning, CreateHookRunning, Deleting}
  {
    hide Inv, Next;
    EditCalls(s, step, t);
    if s.calls[step.c].vm in s.vms {
      Worked(s, step.c);
    }
  }

  lemma GrantReplaces(s: State, step: Step, t: State)
    requires Inv(s) && Next(s, step, t) && Grants(s, step)
    ensures t.nextVM == s.nextVM + Bit(Replaced(s, step))
  {
    hide Inv, Next, AnyEligible, Count;
    GrantPlaces(s, step, t);
  }

  lemma GrantFills(s: State, step: Step, t: State, key: PoolKey)
    requires Inv(s) && Next(s, step, t) && Grants(s, step) && key in s.pools
    ensures FillChange(s, step, t, key)
  {
    hide Inv, Next, Count, Replaced, Settled;
    var m := Settled(s, step, t);
    EditPhase(s, step, t);
    CommitEdits(s, step, t);
    EditFill(s, step, m, key);
    BatchCount(s, step, t, key, FILLING);
    GrantReplaces(s, step, t);
    GrantKey(s, step);
  }

  lemma GrantKey(s: State, step: Step)
    requires Inv(s) && Grants(s, step)
    ensures BatchKey(s, step) == s.vms[s.calls[step.c].vm].pool
  {
    hide Inv;
    Worked(s, step.c);
  }

  lemma BuryFills(s: State, step: Step, t: State, key: PoolKey)
    requires Inv(s) && Next(s, step, t) && Buries(s, step) && Immediate(s, key)
    ensures FillChange(s, step, t, key)
  {
    hide Inv, Next, Count, AnyEligible, Buried;
    BuriedFields(s, step.c);
    RemoveCount(s.vms, s.calls[step.c].vm, key, FILLING);
    BatchCount(s, step, t, key, FILLING);
    BuryPlaces(s, step, t);
  }

  lemma OtherTickFills(s: State, step: Step, t: State, key: PoolKey)
    requires Inv(s) && Next(s, step, t) && step.TickPool? && step.key != key
    ensures FillChange(s, step, t, key)
  {
    hide Inv, Next, Count, Looked;
    TickSettled(s, step, t);
    BatchCount(s, step, t, key, FILLING);
  }

  lemma FillingChange(s: State, step: Step, t: State, key: PoolKey)
    requires Inv(s) && Next(s, step, t) && step != TickPool(key) && Immediate(s, key) && key in t.pools
    ensures FillChange(s, step, t, key)
  {
    hide Inv, Next;
    if Grants(s, step) {
      GrantFills(s, step, t, key);
    } else if Edits(step) {
      EditFills(s, step, t, key);
    } else if Buries(s, step) {
      BuryFills(s, step, t, key);
    } else if step.TickPool? {
      OtherTickFills(s, step, t, key);
    } else {
      OthersBring(s, step, t, key, FILLING);
    }
  }

  lemma TickFilling(s: State, t: State, key: PoolKey)
    requires Inv(s) && Next(s, TickPool(key), t) && Immediate(s, key)
    ensures Filling(t, key) > Filling(s, key) && Filling(t, key) > s.pools[key].spec.size <==> TickOverfills(s, TickPool(key), key)
    ensures TickOverfills(s, TickPool(key), key) ==> t.nextVM - s.nextVM > s.pools[key].spec.size - Filling(s, key)
  {
    hide Inv, Next, Count, Claiming, Population, Deficit, AnyEligible, TickPoolS, Settled, Looked;
    TickNext(s, key, t);
    TickSettled(s, TickPool(key), t);
    BatchCount(s, TickPool(key), t, key, FILLING);
    TickPlaces(s, key);
    FillingParts(s, key);
  }

  /**
   * In any reachable state, while the spec of a Pool with IMMEDIATE_ON_LEASE stays, a section takes the available, claiming
   * and provisioning MicroVMs above the larger of the size and what they were if and only if it is the tick of the Pool and
   * places MicroVMs while a claim is in its hooks, which is more than the size less that sum, or it takes a MicroVM out of
   * DELETING with no room for it.
   */
  lemma OverfillsExactly(s: State, step: Step, t: State, key: PoolKey)
    requires Inv(s) && Next(s, step, t) && Immediate(s, key) && key in t.pools
    ensures Filling(t, key) > Filling(s, key) && Filling(t, key) > s.pools[key].spec.size <==> Overfills(s, step, key)
    ensures TickOverfills(s, step, key) ==> t.nextVM - s.nextVM > s.pools[key].spec.size - Filling(s, key)
  {
    hide Inv, Next, Filling, Claiming, Deficit, AnyEligible, Replaced;
    if step == TickPool(key) {
      TickFilling(s, t, key);
    } else {
      FillingChange(s, step, t, key);
    }
  }

  /** So without such a section the size, or what was there, is never exceeded while the spec stays, in any run. */
  lemma {:induction false} FillingBound(states: seq<State>, steps: seq<Step>, placement: Placement, i: nat, j: nat, key: PoolKey)
    requires Run(states, steps) && states[0] == Init(placement) && i <= j < |states|
    requires Unchanged(states, i, j, key) && Immediate(states[i], key)
    requires forall k | i <= k < j :: !Overfills(states[k], steps[k], key)
    ensures Filling(states[j], key) <= Filling(states[i], key) || Filling(states[j], key) <= states[i].pools[key].spec.size
    decreases j
  {
    hide Inv, Next, Filling, Overfills;
    if i < j {
      assert NextAt(states, steps, j - 1);
      RunInv(states, steps, placement, j - 1);
      FillingBound(states, steps, placement, i, j - 1, key);
      assert key in states[j].pools && key in states[j - 1].pools;
      OverfillsExactly(states[j - 1], steps[j - 1], states[j], key);
    }
  }

  /** Where no Pool is created over tracked MicroVMs of its key, only the tick is such a section. */
  lemma TidyOverfills(s: State, step: Step, t: State, key: PoolKey)
    requires Inv(s) && Tidy(s.vms, s.calls, s.pools) && Next(s, step, t)
    ensures Overfills(s, step, key) ==> step == TickPool(key)
  {
    hide Inv, Next, AnyEligible, Filling, Claiming, Deficit, Replaced;
    if Edits(step) {
      EditCalls(s, step, t);
      assert s.calls[step.c].vm in s.vms ==> CallFits(s.calls[step.c], s.vms[s.calls[step.c].vm], s.pools);
    }
  }
}
