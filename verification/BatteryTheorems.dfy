/** The invariant over every run of the pool manager, and what it says about Leases. */
module BatteryTheorems {
  import opened BatteryTypes
  import opened BatterySections
  import opened BatteryInvariant
  import opened BatteryPieces
  import opened BatteryRuns
  import opened BatteryHistory

  lemma HostsInv(s: State, name: string, address: string, flag: bool)
    requires Inv(s)
    ensures Inv(AddHostS(s, name, address, flag)) && Inv(UpdateHostS(s, name, address, flag)) && Inv(SetCordonedS(s, name, flag))
  {
    hide PoolsOk, IdsOk, UidsOk, LeasesOk, LedgerOk, WorkersOk, PhasesOk, ClaimsOk, ReleasesOk, CallsOk, RequestsOk, OnceOk, AnswersOk, SweptOk, LogOk;
  }

  lemma RemoveHostInv(s: State, name: string)
    requires Inv(s)
    ensures Inv(RemoveHostS(s, name))
  {
    hide PoolsOk, IdsOk, UidsOk, LeasesOk, LedgerOk, WorkersOk, PhasesOk, ClaimsOk, ReleasesOk, CallsOk, RequestsOk, OnceOk, AnswersOk, SweptOk, LogOk;
  }

  lemma AdminInv(s: State, step: Step, t: State)
    requires Inv(s) && Next(s, step, t) && Admin(step)
    ensures Inv(t)
  {
    hide MayLease, DoLease, MayRoutine, DoRoutine, MayTick, DoTick;
    hide Inv, CreatePoolS, UpdatePoolS, DeletePoolS, AddHostS, UpdateHostS, RemoveHostS, SetCordonedS, InOrder, InUse;
    match step
    case Advance(now) => AdvanceInv(s, now);
    case Start => StartInv(s);
    case CreatePool(key, spec) => CreatePoolInv(s, key, spec);
    case UpdatePool(key, spec) => UpdatePoolInv(s, key, spec);
    case DeletePool(key, _, order) => DeletePoolInv(s, key, order);
    case AddHost(name, address, flag) => HostsInv(s, name, address, flag);
    case UpdateHost(name, address, flag) => HostsInv(s, name, address, flag);
    case RemoveHost(name) => RemoveHostInv(s, name);
    case SetCordoned(name, flag) => HostsInv(s, name, "", flag);
  }

  lemma LeasingInv(s: State, step: Step, t: State)
    requires Inv(s) && Next(s, step, t) && Leasing(step)
    ensures Inv(t)
  {
    hide MayAdmin, DoAdmin, MayRoutine, DoRoutine, MayTick, DoTick;
    hide Inv, SelectS, CommitS, ClaimFailS, HeartbeatS, ReleaseS, IsPrior, IsOldest, FreshLease, Known;
    match step
    case ClaimSelect(c, key, request, prior, vm) => SelectInv(s, c, key, request, prior, vm);
    case ClaimCommit(c, prior, l) => CommitInv(s, c, prior, l);
    case ClaimFail(c) => ClaimFailInv(s, c);
    case Heartbeat(l) => HeartbeatInv(s, l);
    case Release(c, l) => ReleaseInv(s, c, l);
  }

  lemma RoutineInv(s: State, step: Step, t: State)
    requires Inv(s) && Next(s, step, t) && Routine(step)
    ensures Inv(t)
  {
    hide MayAdmin, DoAdmin, MayLease, DoLease, MayTick, DoTick;
    hide Inv, ProvDropS, ProvCreateS, ProvHookS, ProvFailS, ProvReadyS, DelMarkS, DelFailS, DelFinishS;
    match step
    case ProvDrop(c) => ProvDropInv(s, c);
    case ProvCreate(c, uid) => ProvCreateInv(s, c, uid);
    case ProvHook(c) => ProvHookInv(s, c);
    case ProvFail(c) => ProvFailInv(s, c);
    case ProvReady(c) => ProvReadyInv(s, c);
    case DelMark(c) => DelMarkInv(s, c);
    case DelFail(c) => DelFailInv(s, c);
    case DelFinish(c) => DelFinishInv(s, c);
  }

  lemma TickInv(s: State, step: Step, t: State)
    requires Inv(s) && Next(s, step, t) && Ticking(step)
    ensures Inv(t)
  {
    hide MayAdmin, DoAdmin, MayLease, DoLease, MayRoutine, DoRoutine;
    hide Inv, SweepS, WarnS, TickPoolS, DueWarning;
    match step
    case Sweep(l, _) => SweepInv(s, l);
    case Warn(l, _) => WarnInv(s, l);
    case Retry(v) => RetryInv(s, v);
    case TickPool(key) => TickPoolInv(s, key);
  }

  /** Every section keeps the invariant. */
  lemma StepInv(s: State, step: Step, t: State)
    requires Inv(s) && Next(s, step, t)
    ensures Inv(t)
  {
    hide Inv, Next;
    if Admin(step) {
      AdminInv(s, step, t);
    } else if Leasing(step) {
      LeasingInv(s, step, t);
    } else if Routine(step) {
      RoutineInv(s, step, t);
    } else {
      TickInv(s, step, t);
    }
  }

  lemma {:induction false} RunInv(states: seq<State>, steps: seq<Step>, placement: Placement, i: nat)
    requires Run(states, steps) && states[0] == Init(placement) && i < |states|
    ensures Inv(states[i])
  {
    hide Inv, Next;
    if i == 0 {
      InitInv(placement);
    } else {
      assert NextAt(states, steps, i - 1);
      RunInv(states, steps, placement, i - 1);
      StepInv(states[i - 1], steps[i - 1], states[i]);
    }
  }

  lemma {:induction false} RunGrows(states: seq<State>, steps: seq<Step>, placement: Placement, i: nat, j: nat)
    requires Run(states, steps) && states[0] == Init(placement) && i <= j < |states|
    ensures Grows(states[i], states[j])
    decreases j
  {
    hide Inv, Next, Grows;
    if i == j {
      GrowsRefl(states[i]);
    } else {
      assert NextAt(states, steps, j - 1);
      RunGrows(states, steps, placement, i, j - 1);
      RunInv(states, steps, placement, j - 1);
      StepGrows(states[j - 1], steps[j - 1], states[j]);
      GrowsTrans(states[i], states[j - 1], states[j]);
    }
  }

  // ----- Leases over every run -----

  /**
   * The lease table: a held Lease names a tracked MicroVM of its Pool that points back to it and is leased or
   * on its way out, its Pool exists, and no other held Lease has its MicroVM or its request id.
   */
  lemma LeaseTable(states: seq<State>, steps: seq<Step>, placement: Placement, i: nat, l: string)
    requires Run(states, steps) && states[0] == Init(placement) && i < |states| && l in states[i].leases
    ensures var s := states[i];
            var lease := s.leases[l];
            && lease.pool in s.pools
            && VmOf(s, lease.vm).Some?
            && var vm := s.vms[VmOf(s, lease.vm).value];
               && vm.uid == lease.vm && vm.lease == l && vm.pool == lease.pool
               && (vm.phase == Leased || vm.phase == Deleting)
    ensures forall m | m in states[i].leases && m != l ::
              && states[i].leases[m].vm != states[i].leases[l].vm
              && (states[i].leases[l].request == "" || states[i].leases[m].request != states[i].leases[l].request)
  {
    hide Inv;
    InitInv(placement);
    RunInv(states, steps, placement, i);
    Held(states[i], l);
    Apart(states[i], l);
  }

  lemma Apart(s: State, l: string)
    requires Inv(s) && l in s.leases
    ensures forall m | m in s.leases && m != l ::
              s.leases[m].vm != s.leases[l].vm && (s.leases[l].request == "" || s.leases[m].request != s.leases[l].request)
  {
    hide PoolsOk, IdsOk, UidsOk, LeasesOk, WorkersOk, PhasesOk, ClaimsOk, ReleasesOk, CallsOk, HostsOk, AnswersOk, SweptOk, LogOk;
    forall m | m in s.leases && m != l ensures s.leases[m].vm != s.leases[l].vm {
      assert s.ledger[m].lease == s.leases[m] && s.ledger[l].lease == s.leases[l];
    }
  }

  /** A MicroVM is leased at most once: whenever two Leases on it were held, they were the same Lease. */
  lemma LeasedOnce(states: seq<State>, steps: seq<Step>, placement: Placement, i: nat, j: nat, l: string, m: string)
    requires Run(states, steps) && states[0] == Init(placement) && i <= j < |states|
    requires l in states[i].leases && m in states[j].leases && states[i].leases[l].vm == states[j].leases[m].vm
    ensures l == m
  {
    hide Inv;
    InitInv(placement);
    RunInv(states, steps, placement, i);
    RunInv(states, steps, placement, j);
    RunGrows(states, steps, placement, i, j);
    Held(states[i], l);
    Held(states[j], m);
    Once(states[j], l, m);
  }

  lemma Once(s: State, l: string, m: string)
    requires Inv(s) && l in s.ledger && m in s.ledger && s.ledger[l].lease.vm == s.ledger[m].lease.vm
    ensures l == m
  {
    hide PoolsOk, IdsOk, UidsOk, LeasesOk, LedgerOk, WorkersOk, PhasesOk, ClaimsOk, ReleasesOk, CallsOk, RequestsOk, HostsOk, AnswersOk, SweptOk, LogOk;
  }

  lemma WasLeased(s: State, v: nat)
    requires Inv(s) && v in s.vms
    ensures s.vms[v].phase == Leased ==> EverLeased(s.ledger, s.vms[v].uid)
    ensures s.vms[v].phase == Available ==> !EverLeased(s.ledger, s.vms[v].uid)
    ensures EverLeased(s.ledger, s.vms[v].uid) ==> s.vms[v].uid != ""
  {
    hide PoolsOk, IdsOk, UidsOk, LeasesOk, WorkersOk, ClaimsOk, ReleasesOk, CallsOk, RequestsOk, OnceOk, HostsOk, AnswersOk, SweptOk, LogOk;
    assert PhaseOk(v, s.vms[v], s.calls, s.ledger);
  }

  /** Once leased, a MicroVM is never available again, however long it is tracked. */
  lemma NeverAvailableAgain(states: seq<State>, steps: seq<Step>, placement: Placement, i: nat, j: nat, v: nat)
    requires Run(states, steps) && states[0] == Init(placement) && i <= j < |states|
    requires v in states[i].vms && states[i].vms[v].phase == Leased && v in states[j].vms
    ensures states[j].vms[v].phase != Available
  {
    hide Inv;
    InitInv(placement);
    RunInv(states, steps, placement, i);
    RunInv(states, steps, placement, j);
    RunGrows(states, steps, placement, i, j);
    WasLeased(states[i], v);
    WasLeased(states[j], v);
    Numbered(states[i], v);
    var l :| l in states[i].ledger && states[i].ledger[l].lease.vm == states[i].vms[v].uid;
    assert l in states[j].ledger && states[j].ledger[l].lease.vm == states[j].vms[v].uid;
  }

  /** A Lease that has ended is never held again. */
  lemma EndedForever(states: seq<State>, steps: seq<Step>, placement: Placement, i: nat, j: nat, l: string)
    requires Run(states, steps) && states[0] == Init(placement) && i <= j < |states|
    requires l in states[i].ledger && l !in states[i].leases
    ensures l !in states[j].leases
  {
    hide Inv;
    InitInv(placement);
    RunInv(states, steps, placement, i);
    RunInv(states, steps, placement, j);
    RunGrows(states, steps, placement, i, j);
    Ended(states[i], l);
    Ended(states[j], l);
  }

  lemma Ended(s: State, l: string)
    requires Inv(s) && l in s.ledger
    ensures l in s.leases <==> s.ledger[l].cause.None?
  {
    hide PoolsOk, IdsOk, UidsOk, LeasesOk, WorkersOk, PhasesOk, ClaimsOk, ReleasesOk, CallsOk, RequestsOk, OnceOk, HostsOk, AnswersOk, SweptOk, LogOk;
  }

  lemma Told(s: State, c: CallId)
    requires Inv(s) && c in s.answers
    ensures match s.answers[c]
            case Claimed(key, request, Granted(l, uid, _)) =>
              && l in s.ledger && s.ledger[l].lease.vm == uid
              && s.ledger[l].lease.pool == key && s.ledger[l].lease.request == request
            case Claimed(_, _, _) => true
            case Released(l, answer) => answer == Done || answer == NotFound ==> l !in s.leases
  {
    hide PoolsOk, IdsOk, UidsOk, LeasesOk, LedgerOk, WorkersOk, PhasesOk, ClaimsOk, ReleasesOk, CallsOk, RequestsOk, OnceOk, HostsOk, SweptOk, LogOk;
  }

  /** Once a ReleaseVM has been answered with success or NOT_FOUND, its Lease is not held, then or ever after. */
  lemma ReleaseIsFinal(states: seq<State>, steps: seq<Step>, placement: Placement, i: nat, j: nat, c: CallId)
    requires Run(states, steps) && states[0] == Init(placement) && i <= j < |states|
    requires c in states[i].answers && states[i].answers[c].Released?
    requires states[i].answers[c].answer == Done || states[i].answers[c].answer == NotFound
    ensures states[i].answers[c].lease !in states[j].leases
  {
    hide Inv;
    InitInv(placement);
    RunInv(states, steps, placement, j);
    RunGrows(states, steps, placement, i, j);
    Told(states[j], c);
  }

  // ----- Events over every run -----

  /** The events that one Pool record has numbered, oldest first. */
  ghost function OfRecord(log: seq<Event>, rec: nat): seq<Event> {
    if log == [] then []
    else OfRecord(log[..|log| - 1], rec) + (if log[|log| - 1].rec == rec then [log[|log| - 1]] else [])
  }

  lemma {:induction false} RecordNumbers(log: seq<Event>, rec: nat)
    requires forall i | 0 <= i < |log| :: log[i].id == Tally(log[..i], log[i].rec) + 1
    ensures |OfRecord(log, rec)| == Tally(log, rec)
    ensures forall k | 0 <= k < |OfRecord(log, rec)| :: OfRecord(log, rec)[k].id == k + 1 && OfRecord(log, rec)[k].rec == rec
    decreases |log|
  {
    if log != [] {
      var rest := log[..|log| - 1];
      forall i | 0 <= i < |rest| ensures rest[i].id == Tally(rest[..i], rest[i].rec) + 1 {
        assert rest[..i] == log[..i] && rest[i] == log[i];
      }
      RecordNumbers(rest, rec);
    }
  }

  /** In every run a Pool's events are numbered 1, 2, 3 and so on in the order they were appended, and its counter is the newest. */
  lemma EventsAreNumbered(states: seq<State>, steps: seq<Step>, placement: Placement, i: nat, rec: nat)
    requires Run(states, steps) && states[0] == Init(placement) && i < |states|
    ensures var events := OfRecord(states[i].log, rec);
            && (forall k | 0 <= k < |events| :: events[k].id == k + 1 && events[k].rec == rec)
            && forall key | Current(states[i], key, rec) :: states[i].pools[key].nextEvent == |events|
  {
    hide Next, PoolsOk, IdsOk, UidsOk, LeasesOk, LedgerOk, WorkersOk, PhasesOk, ClaimsOk, ReleasesOk, CallsOk, RequestsOk, OnceOk, HostsOk, AnswersOk, SweptOk;
    RunInv(states, steps, placement, i);
    RecordNumbers(states[i].log, rec);
  }
}
