/** ClaimVM calls with one request id behave as one atomic claim. */
module BatteryClaims {
  import opened BatteryTypes
  import opened BatterySections
  import opened BatteryInvariant
  import opened BatteryRuns
  import opened BatteryHistory
  import opened BatteryTheorems
  import opened BatteryFields
  import opened BatteryShape

  /** The step answers the ClaimVM call `c` on `key` with `request` by `answer`. */
  ghost predicate Answers(s: State, t: State, c: CallId, key: PoolKey, request: string, answer: Answer) {
    c !in s.answers && c in t.answers && t.answers[c] == Claimed(key, request, answer)
  }

  /**
   * A claim that takes no time: it returns the held Lease that was created with the request id and changes nothing,
   * or, when there is none, stores one new Lease.
   */
  ghost predicate AtomicClaim(before: map<string, Lease>, after: map<string, Lease>, key: PoolKey, request: string,
                              l: string, uid: string)
  {
    && l in after && after[l].vm == uid && after[l].pool == key && after[l].request == request
    && if request != "" && exists m :: m in before && before[m].request == request
       then after == before
       else l !in before && after == before[l := after[l]]
  }

  lemma ReplayGrants(s: State, prior: string, key: PoolKey, l: string, uid: string, h: string)
    requires prior in s.leases && Replay(s, prior, key) == Granted(l, uid, h)
    ensures l == prior && uid == s.leases[l].vm && s.leases[l].pool == key
  {
  }

  lemma ReplayIsAtomic(s: State, prior: string, key: PoolKey, request: string, l: string, uid: string, h: string)
    requires IsPrior(s.leases, request, Some(prior)) && Replay(s, prior, key) == Granted(l, uid, h)
    ensures AtomicClaim(s.leases, s.leases, key, request, l, uid)
  {
    ReplayGrants(s, prior, key, l, uid, h);
  }

  lemma SelectAnswers(s: State, c: CallId, key: PoolKey, request: string, prior: Option<string>, vm: Option<nat>)
    requires prior.Some? ==> prior.value in s.leases
    requires vm.Some? ==> vm.value in s.vms
    ensures SelectS(s, c, key, request, prior, vm).leases == s.leases
    ensures SelectS(s, c, key, request, prior, vm).answers ==
            match Early(s, key, request, prior, vm)
            case Some(answer) => s.answers[c := Claimed(key, request, answer)]
            case None => s.answers
  {
    hide Replay;
  }

  lemma EarlyGrants(s: State, key: PoolKey, request: string, prior: Option<string>, vm: Option<nat>, l: string, uid: string,
                    h: string)
    requires IsPrior(s.leases, request, prior) && Early(s, key, request, prior, vm) == Some(Granted(l, uid, h))
    ensures AtomicClaim(s.leases, s.leases, key, request, l, uid)
  {
    hide AtomicClaim;
    ReplayIsAtomic(s, prior.value, key, request, l, uid, h);
  }

  lemma SelectIsAtomic(s: State, c: CallId, key: PoolKey, request: string, prior: Option<string>, vm: Option<nat>,
                       l: string, uid: string, h: string)
    requires MaySelect(s, c, key, request, prior, vm)
    requires Answers(s, SelectS(s, c, key, request, prior, vm), c, key, request, Granted(l, uid, h))
    ensures AtomicClaim(s.leases, SelectS(s, c, key, request, prior, vm).leases, key, request, l, uid)
  {
    hide SelectS, Early, AtomicClaim;
    SelectAnswers(s, c, key, request, prior, vm);
    EarlyGrants(s, key, request, prior, vm, l, uid, h);
  }

  lemma GrantIsAtomic(s: State, c: CallId, n: string)
    requires c in s.calls && s.calls[c].Claiming? && s.calls[c].vm in s.vms && n !in s.leases
    requires Known(s, s.calls[c].key, s.calls[c].rec) && IsPrior(s.leases, s.calls[c].request, None)
    ensures var t := GrantS(s, c, n);
            var vm := s.vms[s.calls[c].vm];
            && AtomicClaim(s.leases, t.leases, s.calls[c].key, s.calls[c].request, n, vm.uid)
            && c in t.answers
            && t.answers[c] == Claimed(s.calls[c].key, s.calls[c].request, Granted(n, vm.uid, vm.host))
  {
  }

  lemma YieldIsAtomic(s: State, c: CallId, prior: string, l: string, uid: string, h: string)
    requires c in s.calls && s.calls[c].Claiming? && s.calls[c].vm in s.vms
    requires IsPrior(s.leases, s.calls[c].request, Some(prior))
    requires Answers(s, YieldS(s, c, prior), c, s.calls[c].key, s.calls[c].request, Granted(l, uid, h))
    ensures AtomicClaim(s.leases, YieldS(s, c, prior).leases, s.calls[c].key, s.calls[c].request, l, uid)
  {
    hide IsPrior, AtomicClaim, Replay;
    var call := s.calls[c];
    var t := SetVm(s, call.vm, SetPhase(s.vms[call.vm], Available, s.now).(lease := ""));
    IsPriorHeld(s, call.request, prior);
    ReplayIsAtomic(t, prior, call.key, call.request, l, uid, h);
  }

  lemma IsPriorHeld(s: State, request: string, prior: string)
    requires IsPrior(s.leases, request, Some(prior))
    ensures prior in s.leases
  {
  }

  lemma CommitIsAtomic(s: State, c: CallId, prior: Option<string>, n: string, l: string, uid: string, h: string)
    requires Inv(s) && MayCommit(s, c, prior, n)
    requires Answers(s, CommitS(s, c, prior, n), c, s.calls[c].key, s.calls[c].request, Granted(l, uid, h))
    ensures AtomicClaim(s.leases, CommitS(s, c, prior, n).leases, s.calls[c].key, s.calls[c].request, l, uid)
  {
    hide Inv, ProvisionN, FreshLease, GrantS, YieldS, AtomicClaim;
    var call := s.calls[c];
    if Alive(s, call.vm) {
      if prior.Some? {
        YieldIsAtomic(s, c, prior.value, l, uid, h);
      } else {
        var t := GrantS(s, c, n);
        GrantKnown(s, c, n);
        NotHeld(s, n);
        GrantIsAtomic(s, c, n);
      }
    }
  }

  lemma NotHeld(s: State, l: string)
    requires Inv(s) && FreshLease(s, l)
    ensures l !in s.leases
  {
    hide Inv;
    HeldFacts(s);
  }

  /**
   * While a Lease created with a request id is held, a ClaimVM with that id that finds it when its hooks are done
   * gives its own MicroVM back, changes no Lease, and answers with that Lease or with an error.
   */
  lemma LosingClaimYields(s: State, c: CallId, prior: string, n: string)
    requires Inv(s) && MayCommit(s, c, Some(prior), n) && Alive(s, s.calls[c].vm)
    ensures var t := CommitS(s, c, Some(prior), n);
            var v := s.calls[c].vm;
            && t.leases == s.leases && t.ledger == s.ledger
            && t.vms == s.vms[v := SetPhase(s.vms[v], Available, s.now).(lease := "")]
            && c in t.answers
            && (t.answers[c].answer.Granted? ==>
                  t.answers[c].answer.lease == prior && t.answers[c].answer.vm == s.leases[prior].vm)
  {
    hide Inv, ProvisionN, FreshLease, GrantS;
  }

  // ----- Over every run -----

  /** No ClaimVM is answered with a Lease between the two states. */
  ghost predicate GrantsNothing(a: map<CallId, Reply>, b: map<CallId, Reply>) {
    forall c | c in b && c !in a :: b[c].Released? || !b[c].answer.Granted?
  }

  lemma ReleaseGrantsNothing(s: State, c: CallId, l: string)
    requires Inv(s)
    ensures GrantsNothing(s.answers, ReleaseS(s, c, l).answers)
  {
    hide Inv, ReleaseS;
    if l in s.leases {
      Held(s, l);
      ReleaseFields(s, c, l);
    } else {
      UnknownFields(s, c, l);
    }
  }

  lemma AdminGrantsNothing(s: State, step: Step, t: State)
    requires Inv(s) && Next(s, step, t) && Admin(step)
    ensures t.answers == s.answers
  {
    hide MayLease, DoLease, MayRoutine, DoRoutine, MayTick, DoTick;
    hide Inv, InUse, Accepted, Named, Occupied, DeletePoolS;
    if step.DeletePool? {
      NumbersOk(s);
      InOrderTracked(s, step.key, step.order);
      DeletePoolFields(s, step.key, step.order);
    }
  }

  lemma TickGrantsNothing(s: State, step: Step, t: State)
    requires Next(s, step, t) && Ticking(step)
    ensures t.answers == s.answers
  {
    hide MayAdmin, DoAdmin, MayLease, DoLease, MayRoutine, DoRoutine;
    hide SweepS, WarnS, TickPoolS, DueWarning, ProvisionN, Looked;
    match step
    case Sweep(l, _) => SweepFields(s, l);
    case Warn(l, _) => WarnFields(s, l);
    case TickPool(key) => TickPoolFields(s, key);
    case Retry(_) =>
  }

  lemma LeasingGrantsNothing(s: State, step: Step, t: State)
    requires Inv(s) && Next(s, step, t) && (step.ClaimFail? || step.Heartbeat? || step.Release?)
    ensures GrantsNothing(s.answers, t.answers)
  {
    hide MayAdmin, DoAdmin, MayRoutine, DoRoutine, MayTick, DoTick;
    hide Inv, ClaimFailS, HeartbeatS, ReleaseS;
    match step
    case ClaimFail(c) => ClaimFailFields(s, c);
    case Heartbeat(l) => HeartbeatFields(s, l);
    case Release(c, l) => ReleaseGrantsNothing(s, c, l);
  }

  /** Only the two sections of a ClaimVM answer with a Lease. */
  lemma OthersGrantNothing(s: State, step: Step, t: State)
    requires Inv(s) && Next(s, step, t) && !step.ClaimSelect? && !step.ClaimCommit?
    ensures GrantsNothing(s.answers, t.answers)
  {
    hide Inv, Next;
    if Admin(step) {
      AdminGrantsNothing(s, step, t);
    } else if Leasing(step) {
      LeasingGrantsNothing(s, step, t);
    } else if Routine(step) {
      RoutineFrame(s, step, t);
    } else {
      TickGrantsNothing(s, step, t);
    }
  }

  lemma ClaimIsAtomic(s: State, step: Step, t: State, c: CallId, key: PoolKey, request: string, l: string, uid: string, h: string)
    requires Inv(s) && Next(s, step, t) && (step.ClaimSelect? || step.ClaimCommit?)
    requires Answers(s, t, c, key, request, Granted(l, uid, h))
    ensures AtomicClaim(s.leases, t.leases, key, request, l, uid)
  {
    hide MayAdmin, DoAdmin, MayRoutine, DoRoutine, MayTick, DoTick;
    hide Inv, AtomicClaim, SelectS, CommitS;
    match step
    case ClaimSelect(d, k, r, prior, vm) =>
      SelectAnswers(s, d, k, r, prior, vm);
      SelectIsAtomic(s, d, k, r, prior, vm, l, uid, h);
    case ClaimCommit(d, prior, n) =>
      CommitAnswers(s, d, prior, n);
      CommitIsAtomic(s, d, prior, n, l, uid, h);
  }

  /** Whatever step answers a ClaimVM with a Lease is an atomic claim of it. */
  lemma StepIsAtomic(s: State, step: Step, t: State, c: CallId, key: PoolKey, request: string, l: string, uid: string, h: string)
    requires Inv(s) && Next(s, step, t)
    requires Answers(s, t, c, key, request, Granted(l, uid, h))
    ensures AtomicClaim(s.leases, t.leases, key, request, l, uid)
  {
    hide Inv, Next, AtomicClaim;
    if step.ClaimSelect? || step.ClaimCommit? {
      ClaimIsAtomic(s, step, t, c, key, request, l, uid, h);
    } else {
      OthersGrantNothing(s, step, t);
    }
  }

  lemma CommitAnswers(s: State, c: CallId, prior: Option<string>, n: string)
    requires MayCommit(s, c, prior, n)
    ensures var t := CommitS(s, c, prior, n);
            exists answer :: t.answers == s.answers[c := Claimed(s.calls[c].key, s.calls[c].request, answer)]
  {
    hide IsPrior, GrantS, YieldS, ProvisionN, FreshLease;
    var call := s.calls[c];
    var reply := Claimed(call.key, call.request, NotFound);
    assert Finish(s, c, reply).answers == s.answers[c := reply];
    if Alive(s, call.vm) {
      if prior.Some? {
        YieldFields(s, c, prior.value);
      } else {
        GrantFields(s, c, n);
      }
    }
  }

  /** A Lease held at both ends of a run was held all along, with the same MicroVM, Pool and request id. */
  lemma HeldBetween(states: seq<State>, steps: seq<Step>, placement: Placement, i: nat, k: nat, j: nat, l: string)
    requires Run(states, steps) && states[0] == Init(placement) && i <= k <= j < |states|
    requires l in states[i].leases && l in states[j].leases
    ensures l in states[k].leases
    ensures var a := states[i].leases[l];
            var b := states[k].leases[l];
            a.vm == b.vm && a.pool == b.pool && a.request == b.request
  {
    hide Inv, Run;
    InitInv(placement);
    RunInv(states, steps, placement, i);
    RunInv(states, steps, placement, k);
    RunGrows(states, steps, placement, i, k);
    Held(states[i], l);
    if l !in states[k].leases {
      EndedForever(states, steps, placement, k, j, l);
    }
    Held(states[k], l);
  }

  lemma AtomicReplay(before: map<string, Lease>, after: map<string, Lease>, key: PoolKey, request: string, l: string,
                     uid: string, m: string)
    requires AtomicClaim(before, after, key, request, l, uid) && RequestsOk(before)
    requires request != "" && m in before && before[m].request == request
    ensures l == m && uid == before[m].vm && key == before[m].pool && after == before
  {
  }

  lemma RequestsHeld(s: State)
    requires Inv(s)
    ensures RequestsOk(s.leases)
  {
    hide PoolsOk, IdsOk, UidsOk, LeasesOk, LedgerOk, WorkersOk, PhasesOk, ClaimsOk, ReleasesOk, CallsOk, OnceOk, HostsOk, AnswersOk, SweptOk, LogOk;
  }

  /**
   * While a Lease created with a request id is held, every ClaimVM with that id that succeeds
   * is answered with that Lease and its MicroVM.
   */
  lemma {:induction false} OneClaim(states: seq<State>, steps: seq<Step>, placement: Placement, i: nat, j: nat, l: string,
                                    c: CallId)
    requires Run(states, steps) && states[0] == Init(placement) && i <= j < |states|
    requires l in states[i].leases && l in states[j].leases && states[i].leases[l].request != ""
    requires c !in states[i].answers && c in states[j].answers && states[j].answers[c].Claimed?
    requires states[j].answers[c].request == states[i].leases[l].request && states[j].answers[c].answer.Granted?
    ensures states[j].answers[c].answer.lease == l && states[j].answers[c].answer.vm == states[i].leases[l].vm
    ensures states[j].answers[c].key == states[i].leases[l].pool
    decreases j
  {
    hide Inv, Next, AtomicClaim, Grows;
    InitInv(placement);
    assert i < j;
    var k := j - 1;
    assert NextAt(states, steps, k);
    RunInv(states, steps, placement, k);
    HeldBetween(states, steps, placement, i, k, j, l);
    if c in states[k].answers {
      AnswersKept(states, steps, k, c);
      OneClaim(states, steps, placement, i, k, l, c);
    } else {
      var reply := states[j].answers[c];
      var a := reply.answer;
      StepIsAtomic(states[k], steps[k], states[j], c, reply.key, reply.request, a.lease, a.vm, a.host);
      RequestsHeld(states[k]);
      AtomicReplay(states[k].leases, states[j].leases, reply.key, reply.request, a.lease, a.vm, l);
    }
  }

  lemma AnswersKept(states: seq<State>, steps: seq<Step>, k: nat, c: CallId)
    requires Run(states, steps) && k < |steps| && Inv(states[k]) && c in states[k].answers
    ensures c in states[k + 1].answers && states[k + 1].answers[c] == states[k].answers[c]
  {
    hide Inv, Next;
    assert NextAt(states, steps, k);
    StepGrows(states[k], steps[k], states[k + 1]);
  }
}
