/** Runs from the empty manager in which a property fails that needs its assumption. */
module BatteryWitnesses {
  import opened BatteryTypes
  import opened BatterySections
  import opened BatteryInvariant
  import opened BatteryRuns
  import opened BatteryTheorems
  import opened BatteryFields
  import opened BatteryShape
  import opened BatteryOrder
  import opened BatteryDraining
  import opened BatteryRevival
  import opened BatteryPopulation
  import opened BatteryGains
  import opened BatteryOverfill
  import opened BatteryExpiry
  import opened BatteryLeases

  /** Some run from the empty manager leads to the state. */
  ghost predicate Reachable(s: State) {
    exists states: seq<State>, steps: seq<Step> :: LeadsTo(states, steps, s)
  }

  ghost predicate LeadsTo(states: seq<State>, steps: seq<Step>, s: State) {
    Run(states, steps) && states[0] == Init(LeastVMs) && states[|steps|] == s
  }

  lemma Onward(s: State, step: Step, t: State)
    requires Reachable(s) && Next(s, step, t)
    ensures Reachable(t)
  {
    hide Next;
    var states: seq<State>, steps: seq<Step> :| LeadsTo(states, steps, s);
    Extend(states, steps, step, t);
    assert LeadsTo(states + [t], steps + [step], t);
  }

  lemma ReachableInv(s: State)
    requires Reachable(s)
    ensures Inv(s)
  {
    hide Next, Inv;
    var states: seq<State>, steps: seq<Step> :| LeadsTo(states, steps, s);
    RunInv(states, steps, LeastVMs, |steps|);
  }

  // ----- New names -----

  lemma {:induction false} LongestOf(used: set<string>) returns (n: nat)
    ensures forall u | u in used :: |u| <= n
    decreases |used|
  {
    n := 0;
    if used != {} {
      var u :| u in used;
      var m := LongestOf(used - {u});
      n := if |u| > m then |u| else m;
    }
  }

  lemma NewString(used: set<string>) returns (x: string)
    ensures x != "" && x !in used
  {
    var n := LongestOf(used);
    x := seq(n + 1, _ => 'x');
    assert |x| == n + 1;
  }

  lemma {:induction false} LargestOf(used: set<CallId>) returns (n: nat)
    ensures forall c | c in used :: c.n <= n
    decreases |used|
  {
    n := 0;
    if used != {} {
      var c :| c in used;
      var m := LargestOf(used - {c});
      n := if c.n > m then c.n else m;
    }
  }

  lemma NewCall(s: State) returns (c: CallId)
    ensures NewRpc(s, c)
  {
    var n := LargestOf(s.calls.Keys + s.answers.Keys);
    c := Rpc(n + 1);
  }

  lemma NewLeaseId(s: State) returns (l: string)
    ensures FreshLease(s, l)
  {
    l := NewString(s.ledger.Keys + set c | c in s.answers && s.answers[c].Released? :: s.answers[c].lease);
  }

  lemma {:induction false} SomeOrder(ids: set<nat>) returns (order: seq<nat>)
    ensures InOrder(order, ids)
    decreases |ids|
  {
    order := [];
    if ids != {} {
      var m := LastOf(ids);
      var rest := SomeOrder(ids - {m});
      order := rest + [m];
      assert forall i | 0 <= i < |rest| :: rest[i] in rest;
    }
  }

  lemma {:induction false} LastOf(ids: set<nat>) returns (m: nat)
    requires ids != {}
    ensures m in ids && forall v | v in ids :: v <= m
    decreases |ids|
  {
    var k :| k in ids;
    m := k;
    if ids - {k} != {} {
      var n := LastOf(ids - {k});
      m := if n > k then n else k;
    }
    assert forall v | v in ids :: v == k || v in ids - {k};
  }

  // ----- One claim after the other goes into its hooks -----

  /** A running manager with the Pool of size one and its Host. */
  ghost predicate Roomy(s: State) {
    && s.running && KEY in s.pools && s.pools[KEY].spec == SPEC && Eligible(s.hosts, "h")
  }

  /** The claims are in their hooks. */
  ghost predicate Waiting(s: State, cs: set<CallId>) {
    KEY in s.pools && forall c | c in cs ::
      && c in s.calls && s.calls[c].Claiming? && s.calls[c].key == KEY && s.calls[c].request == ""
      && s.calls[c].rec == s.pools[KEY].rec && s.calls[c].vm in s.vms && s.vms[s.calls[c].vm].pool == KEY
  }

  /** What every step on the way leaves alone. */
  ghost predicate Apace(s: State, t: State) {
    && t.hosts == s.hosts && t.running == s.running && t.leases == s.leases && t.now == s.now
    && (KEY in s.pools ==> KEY in t.pools && t.pools[KEY].rec == s.pools[KEY].rec && t.pools[KEY].spec == s.pools[KEY].spec)
    && (forall c | c in s.calls && s.calls[c].Claiming? :: c in t.calls && t.calls[c] == s.calls[c])
    && (forall v | v in s.vms :: v in t.vms && t.vms[v].pool == s.vms[v].pool)
  }

  lemma ApaceTrans(s: State, t: State, u: State)
    requires Apace(s, t) && Apace(t, u)
    ensures Apace(s, u)
  {
  }

  lemma ApaceKeeps(s: State, t: State, cs: set<CallId>)
    requires Apace(s, t) && Roomy(s) && Waiting(s, cs)
    ensures Roomy(t) && Waiting(t, cs) && t.leases == s.leases
  {
  }

  /** The available and provisioning MicroVMs of the Pool. */
  ghost function Warm(s: State): set<nat> {
    Members(s.vms, KEY, Counted(ImmediateOnLease))
  }

  lemma WarmOne(s: State, t: State, v: nat, vm: VM)
    requires t.vms == s.vms[v := vm] && vm.pool == KEY && vm.phase in Counted(ImmediateOnLease) && Warm(s) <= {v}
    ensures Warm(t) == {v}
  {
  }

  lemma TickIs(s: State)
    requires Roomy(s) && Warm(s) == {}
    ensures var m := Looked(s, KEY);
            var rec := s.pools[KEY].rec;
            && Current(m, KEY, rec) && m == s.(pools := m.pools, log := m.log) && PoolsLike(s.pools, m.pools)
            && TickPoolS(s, KEY) == Emit(Place(m, KEY, rec, "h"), KEY, "", PoolReplenishing)
  {
    hide Looked, Deficit, TickPoolS, Emit, Pick, Warm, Logged;
    OneWantedNow(s);
    TickPoolFields(s, KEY);
    var m := Looked(s, KEY);
    var rec := s.pools[KEY].rec;
    assert Pick(m, Record(m, KEY, rec)) == Some("h");
    var p := Place(m, KEY, rec, "h");
    assert Reserve(m, KEY, rec, 1) == Reserve(p, KEY, rec, 0) == p;
  }

  lemma PlaceFields(m: State, rec: nat)
    requires Current(m, KEY, rec)
    ensures var p := Place(m, KEY, rec, "h");
            var v := m.nextVM + 1;
            && p == m.(pools := p.pools, nextVM := v, vms := m.vms[v := NewVM(KEY, m.pools[KEY].spec.policy, "h", m.now)],
                       calls := m.calls[Task(m.nextTask) := Placed(v)], nextTask := m.nextTask + 1)
            && PoolsLike(m.pools, p.pools)
  {
  }

  lemma TickAdds(s: State)
    requires Roomy(s) && Warm(s) == {}
    ensures var t := TickPoolS(s, KEY);
            var v := s.nextVM + 1;
            && t == s.(pools := t.pools, log := t.log, nextVM := v, vms := s.vms[v := NewVM(KEY, SPEC.policy, "h", s.now)],
                       calls := s.calls[Task(s.nextTask) := Placed(v)], nextTask := s.nextTask + 1)
            && PoolsLike(s.pools, t.pools)
  {
    hide Looked, TickPoolS, Emit, Warm, Place;
    TickIs(s);
    PlaceFields(Looked(s, KEY), s.pools[KEY].rec);
  }

  lemma PlacedOne(s: State)
    requires Inv(s) && Roomy(s) && Warm(s) == {}
    ensures var t := TickPoolS(s, KEY);
            var v := s.nextVM + 1;
            && Apace(s, t) && Warm(t) == {v} && v in t.vms && t.vms[v].pool == KEY
            && Task(s.nextTask) in t.calls && t.calls[Task(s.nextTask)] == Placed(v)
  {
    hide Inv, TickPoolS, Warm;
    TickAdds(s);
    FreshIds(s);
    WarmOne(s, TickPoolS(s, KEY), s.nextVM + 1, NewVM(KEY, SPEC.policy, "h", s.now));
  }

  lemma FreshIds(s: State)
    requires Inv(s)
    ensures s.nextVM + 1 !in s.vms && Task(s.nextTask) !in s.calls
  {
    hide Inv;
    NumbersOk(s);
  }

  lemma OneWantedNow(s: State)
    requires Roomy(s) && Warm(s) == {}
    ensures Deficit(s, KEY) == 1
  {
    hide Deficit;
    FillingParts(s, KEY);
  }

  /** The section edits the one MicroVM it works on and its call. */
  lemma EditApace(s: State, t: State, v: nat, vm: VM, c: CallId)
    requires v in s.vms && t.vms == s.vms[v := vm] && vm.pool == s.vms[v].pool
    requires t.hosts == s.hosts && t.running == s.running && t.leases == s.leases && t.now == s.now && PoolsLike(s.pools, t.pools)
    requires forall d | d in s.calls && d != c :: d in t.calls && t.calls[d] == s.calls[d]
    requires c in s.calls ==> !s.calls[c].Claiming?
    ensures Apace(s, t)
  {
  }

  /** From its placement to its availability. */
  lemma Provisioned(s: State, c: CallId, v: nat) returns (t: State)
    requires Reachable(s) && Roomy(s) && Warm(s) == {v} && v in s.vms && s.vms[v].pool == KEY && c in s.calls && s.calls[c] == Placed(v)
    ensures Reachable(t) && Apace(s, t) && Warm(t) == {v} && v in t.vms && t.vms[v].phase == Available
  {
    hide Next, Reachable, Warm, ProvCreateS, ProvHookS, ProvReadyS, Apace;
    var a := NamedOne(s, c, v);
    var b := HookedOne(a, c, v);
    t := ReadyOne(b, c, v);
    ApaceTrans(s, a, b);
    ApaceTrans(s, b, t);
  }

  lemma InPool(s: State, v: nat)
    requires Warm(s) == {v}
    ensures v in s.vms && s.vms[v].pool == KEY && s.vms[v].phase in Counted(ImmediateOnLease)
  {
    assert v in Warm(s);
  }

  lemma NamedOne(s: State, c: CallId, v: nat) returns (t: State)
    requires Reachable(s) && KEY in s.pools && Warm(s) == {v} && c in s.calls && s.calls[c] == Placed(v)
    ensures Reachable(t) && Apace(s, t) && KEY in t.pools && Warm(t) == {v} && c in t.calls && t.calls[c] == Created(v)
  {
    hide Next, Reachable, Warm, ProvCreateS, Logged;
    InPool(s, v);
    var uid := NewString(s.uids);
    t := ProvCreateS(s, c, uid);
    ProvCreateNext(s, c, uid);
    ProvCreateFields(s, c, uid);
    Onward(s, ProvCreate(c, uid), t);
    WarmOne(s, t, v, t.vms[v]);
    EditApace(s, t, v, t.vms[v], c);
  }

  lemma HookedOne(s: State, c: CallId, v: nat) returns (t: State)
    requires Reachable(s) && KEY in s.pools && Warm(s) == {v} && c in s.calls && s.calls[c] == Created(v)
    ensures Reachable(t) && Apace(s, t) && KEY in t.pools && Warm(t) == {v} && c in t.calls && t.calls[c] == Hooking(v)
  {
    hide Next, Reachable, Warm, ProvHookS;
    InPool(s, v);
    t := ProvHookS(s, c);
    HookNext(s, c);
    ProvHookFields(s, c);
    Onward(s, ProvHook(c), t);
    WarmOne(s, t, v, t.vms[v]);
    EditApace(s, t, v, t.vms[v], c);
  }

  lemma ReadyNext(s: State, c: CallId)
    requires c in s.calls && s.calls[c].Hooking?
    ensures Next(s, ProvReady(c), ProvReadyS(s, c))
  {
    hide ProvReadyS, MayAdmin, DoAdmin, MayLease, DoLease, MayTick, DoTick;
  }

  lemma ReadyOne(s: State, c: CallId, v: nat) returns (t: State)
    requires Reachable(s) && KEY in s.pools && Warm(s) == {v} && c in s.calls && s.calls[c] == Hooking(v)
    ensures Reachable(t) && Apace(s, t) && Warm(t) == {v} && v in t.vms && t.vms[v].phase == Available
  {
    hide Next, Reachable, Warm, ProvReadyS, Logged;
    InPool(s, v);
    t := ProvReadyS(s, c);
    ReadyNext(s, c);
    ProvReadyFields(s, c);
    Onward(s, ProvReady(c), t);
    WarmOne(s, t, v, t.vms[v]);
    EditApace(s, t, v, t.vms[v], c);
  }

  lemma SelectNext(s: State, c: CallId, v: nat)
    requires NewRpc(s, c) && IsOldest(s.vms, KEY, Some(v))
    ensures Next(s, ClaimSelect(c, KEY, "", None, Some(v)), SelectS(s, c, KEY, "", None, Some(v)))
  {
    hide SelectS, IsOldest, NewRpc, MayAdmin, DoAdmin, MayRoutine, DoRoutine, MayTick, DoTick;
  }

  lemma OnlyOne(s: State, v: nat)
    requires Warm(s) == {v} && v in s.vms && s.vms[v].phase == Available
    ensures IsOldest(s.vms, KEY, Some(v))
  {
    InPool(s, v);
    forall w | IsAvailable(s.vms, KEY, w) ensures w == v {
      assert w in Warm(s);
    }
  }

  /** A new claim takes it into its hooks. */
  lemma SelectedOne(s: State, v: nat, cs: set<CallId>) returns (t: State, c: CallId)
    requires Reachable(s) && Roomy(s) && Waiting(s, cs) && Warm(s) == {v} && v in s.vms && s.vms[v].phase == Available
    ensures Reachable(t) && Roomy(t) && Warm(t) == {} && c !in cs && Waiting(t, cs + {c}) && t.leases == s.leases
  {
    hide Next, Reachable, Warm, SelectS, IsOldest;
    InPool(s, v);
    OnlyOne(s, v);
    c := NewCall(s);
    t := SelectS(s, c, KEY, "", None, Some(v));
    SelectNext(s, c, v);
    Onward(s, ClaimSelect(c, KEY, "", None, Some(v)), t);
    TakeFields(s, c, KEY, "", None, Some(v));
    WarmNone(s, t, v);
    EditApace(s, t, v, t.vms[v], c);
    ApaceKeeps(s, t, cs);
  }

  lemma WarmNone(s: State, t: State, v: nat)
    requires v in t.vms && t.vms == s.vms[v := t.vms[v]] && Warm(s) == {v} && t.vms[v].phase == PreLeaseHookRunning
    ensures Warm(t) == {}
  {
    assert PreLeaseHookRunning !in Counted(ImmediateOnLease);
    assert forall w :: w in Warm(t) <==> w in Warm(s) && w != v;
  }

  /** One more claim in its hooks. */
  lemma OneMoreClaim(s: State, cs: set<CallId>) returns (t: State, c: CallId)
    requires Reachable(s) && Roomy(s) && Waiting(s, cs) && Warm(s) == {}
    ensures Reachable(t) && Roomy(t) && Warm(t) == {} && c !in cs && Waiting(t, cs + {c}) && t.leases == s.leases
  {
    hide Next, Reachable, Warm, TickPoolS, Waiting, Apace;
    ReachableInv(s);
    PlacedOne(s);
    var a := TickPoolS(s, KEY);
    Ticks(s);
    ApaceKeeps(s, a, cs);
    var b := Provisioned(a, Task(s.nextTask), s.nextVM + 1);
    ApaceKeeps(a, b, cs);
    t, c := SelectedOne(b, s.nextVM + 1, cs);
  }

  lemma Ticks(s: State)
    requires Reachable(s) && Roomy(s)
    ensures Reachable(TickPoolS(s, KEY))
  {
    hide Next, Reachable, TickPoolS;
    TickPoolNext(s, KEY);
    Onward(s, TickPool(KEY), TickPoolS(s, KEY));
  }

  /** For every n there is a run that ends with n claims in their hooks. */
  lemma {:induction false} ManyClaims(n: nat) returns (s: State, cs: set<CallId>)
    ensures Reachable(s) && Roomy(s) && Warm(s) == {} && |cs| == n && Waiting(s, cs) && s.leases == map[]
  {
    hide Next, Reachable, Roomy, Waiting, Warm;
    if n == 0 {
      s, cs := READY, {};
      ReadyHolds();
    } else {
      var r, ds := ManyClaims(n - 1);
      var c;
      s, c := OneMoreClaim(r, ds);
      cs := ds + {c};
    }
  }

  lemma ReadyHolds()
    ensures Reachable(READY) && Roomy(READY) && Warm(READY) == {} && Waiting(READY, {}) && READY.leases == map[]
  {
    hide Next;
    var states, steps := ReadyIsReached();
    assert LeadsTo(states, steps, READY);
  }

  // ----- No upper bound -----

  lemma CommitNext(s: State, c: CallId, l: string)
    requires MayCommit(s, c, None, l)
    ensures Next(s, ClaimCommit(c, None, l), CommitS(s, c, None, l))
  {
    hide CommitS, MayCommit, MayAdmin, DoAdmin, MayRoutine, DoRoutine, MayTick, DoTick;
  }

  lemma CommitKeeps(s: State, c: CallId, l: string, cs: set<CallId>)
    requires Inv(s) && MayCommit(s, c, None, l) && Alive(s, s.calls[c].vm) && Roomy(s) && Waiting(s, cs) && c in cs
    ensures var t := CommitS(s, c, None, l);
            Roomy(t) && Waiting(t, cs - {c})
  {
    hide Inv, GrantS, ProvisionN, IsPrior, FreshLease, Numbers, Logged;
    var call := s.calls[c];
    GrantFields(s, c, l);
    NumbersOk(s);
    GrantShape(s, c, l);
    ProvisionGrew(GrantS(s, c, l), call.key, call.rec, OnClaimed(Record(s, call.key, call.rec).spec));
  }

  /** Every claim that commits adds one. */
  lemma {:induction false} AllCommit(s: State, cs: set<CallId>) returns (t: State)
    requires Reachable(s) && Roomy(s) && Waiting(s, cs)
    ensures Reachable(t) && Roomy(t) && Population(t, KEY) == Population(s, KEY) + |cs|
    decreases |cs|
  {
    hide Next, Reachable, CommitS, IsPrior, FreshLease, Population;
    t := s;
    if cs != {} {
      var c :| c in cs;
      var l := NewLeaseId(s);
      ReachableInv(s);
      assert IsPrior(s.leases, "", None) by {
        NoRequest(s);
      }
      var u := CommitS(s, c, None, l);
      CommitAdds(s, c, l);
      CommitKeeps(s, c, l, cs);
      CommitNext(s, c, l);
      Onward(s, ClaimCommit(c, None, l), u);
      t := AllCommit(u, cs - {c});
    }
  }

  lemma NoRequest(s: State)
    ensures IsPrior(s.leases, "", None)
  {
  }

  /** IMMEDIATE_ON_LEASE has no upper bound: for every n a run from the empty manager leads more than n above the size. */
  lemma NoUpperBound(n: nat) returns (states: seq<State>, steps: seq<Step>)
    ensures Run(states, steps) && states[0] == Init(LeastVMs)
    ensures var s := states[|steps|];
            KEY in s.pools && s.pools[KEY].spec == SPEC && Population(s, KEY) > SPEC.size + n
  {
    hide Next, Waiting, Warm;
    var s, cs := ManyClaims(n + 2);
    var t := AllCommit(s, cs);
    states, steps :| LeadsTo(states, steps, t);
  }

  // ----- An expiry that moves back -----

  const SHORTER := SPEC.(threshold := 1)

  /** A claim is granted, with the threshold of the Pool. */
  lemma OneGranted() returns (s: State, l: string)
    ensures Reachable(s) && Roomy(s) && l in s.leases && s.leases[l].pool == KEY && s.leases[l].expiresAt == s.now + 2
  {
    hide Next, Reachable, CommitS, GrantS, ProvisionN, IsPrior, FreshLease, Warm;
    var r, cs := ManyClaims(1);
    var c :| c in cs;
    l := NewLeaseId(r);
    ReachableInv(r);
    assert IsPrior(r.leases, "", None) by {
      NoRequest(r);
    }
    s := CommitS(r, c, None, l);
    CommitKeeps(r, c, l, cs);
    CommitNext(r, c, l);
    Onward(r, ClaimCommit(c, None, l), s);
    Granted1(r, c, l);
  }

  lemma Granted1(s: State, c: CallId, l: string)
    requires MayCommit(s, c, None, l) && Alive(s, s.calls[c].vm) && Roomy(s) && s.calls[c].key == KEY && Current(s, KEY, s.calls[c].rec)
    ensures var t := CommitS(s, c, None, l);
            l in t.leases && t.leases[l].pool == KEY && t.leases[l].expiresAt == s.now + 2 && t.now == s.now
  {
    hide GrantS, ProvisionN, IsPrior, FreshLease, Logged;
    GrantFields(s, c, l);
  }

  lemma UpdateNext(s: State, l: string)
    ensures Next(s, UpdatePool(KEY, SHORTER), UpdatePoolS(s, KEY, SHORTER))
    ensures Next(s, Heartbeat(l), HeartbeatS(s, l))
  {
    hide UpdatePoolS, HeartbeatS, MayRoutine, DoRoutine, MayTick, DoTick;
  }

  /** A reachable state in which a Heartbeat makes an expiry earlier, after the Pool was given a shorter threshold. */
  lemma ExpiryMovesBack() returns (s: State, t: State, l: string)
    ensures Reachable(s) && Next(s, Heartbeat(l), t) && l in s.leases && l in t.leases
    ensures t.leases[l].expiresAt < s.leases[l].expiresAt
  {
    hide Next, Reachable, HeartbeatS;
    var r;
    r, l := OneGranted();
    s := UpdatePoolS(r, KEY, SHORTER);
    UpdateNext(r, l);
    Onward(r, UpdatePool(KEY, SHORTER), s);
    t := HeartbeatS(s, l);
    UpdateNext(s, l);
    HeartbeatFields(s, l);
  }

  // ----- A Pool created over MicroVMs of its key -----

  lemma EmitReports(s: State, key: PoolKey, uid: string)
    requires key in s.pools && uid != ""
    ensures var log := Emit(s, key, uid, VmDeletedOnPoolDelete).log;
            Reported(log, uid) && s.log <= log
  {
    var log := Emit(s, key, uid, VmDeletedOnPoolDelete).log;
    assert ReportsDeletion(log[|s.log|]) && log[|s.log|].vm == uid;
  }

  lemma {:induction false} DeletionsReported(s: State, key: PoolKey, order: seq<nat>, v: nat)
    requires key in s.pools && v in order && v in s.vms && s.vms[v].uid != "" && forall w | w in order :: w in s.vms
    ensures Reported(EmitDeleted(s, key, order).log, s.vms[v].uid)
    decreases |order|
  {
    hide EmitDeleted, Emit, Reported;
    var rest, w := order[..|order| - 1], order[|order| - 1];
    assert order == rest + [w] && w in order;
    EmitNext(s, key, rest, w);
    var t := EmitDeleted(s, key, rest);
    if s.vms[w].uid != "" {
      EmitReports(t, key, s.vms[w].uid);
    }
    if w != v {
      DeletionsReported(s, key, rest, v);
      ReportedOn(t.log, EmitDeleted(s, key, order).log, s.vms[v].uid);
    }
  }

  lemma PoolDeletionReported(s: State, key: PoolKey, order: seq<nat>, v: nat)
    requires key in s.pools && v in order && v in s.vms && s.vms[v].uid != "" && forall w | w in order :: w in s.vms
    ensures Reported(DeletePoolS(s, key, order).log, s.vms[v].uid)
  {
    hide EmitDeleted, SpawnAll, Reported, MarkAll, LeasesWithout, LedgerWithout, PoolDeletions;
    DeletionsReported(s, key, order, v);
  }

  /** The claim is in its hooks, with a MicroVM of the Pool. */
  ghost predicate InHooks(s: State, c: CallId) {
    && Roomy(s) && c in s.calls && s.calls[c].Claiming? && s.calls[c].key == KEY && s.calls[c].rec == s.pools[KEY].rec
    && s.calls[c].vm in s.vms && s.vms[s.calls[c].vm].pool == KEY
  }

  /** The claim is in its hooks, and its MicroVM was reported deleted with the Pool, which exists again with the spec. */
  ghost predicate Outlived(s: State, c: CallId, spec: Spec) {
    && s.running && Eligible(s.hosts, "h") && c in s.calls && s.calls[c].Claiming? && s.calls[c].key == KEY
    && KEY in s.pools && s.pools[KEY].spec == spec && !Current(s, KEY, s.calls[c].rec)
    && s.calls[c].rec in s.gone && s.gone[s.calls[c].rec].spec == SPEC
    && s.calls[c].vm in s.vms && s.vms[s.calls[c].vm].pool == KEY && Reported(s.log, s.vms[s.calls[c].vm].uid)
    && forall l | l in s.leases :: s.leases[l].pool != KEY
  }

  lemma DeletedUnder(s: State, c: CallId, order: seq<nat>)
    requires Inv(s) && InHooks(s, c) && InOrder(order, PoolVMs(s.vms, KEY))
    ensures var a := DeletePoolS(s, KEY, order);
            && a == s.(pools := a.pools, gone := a.gone, vms := a.vms, leases := LeasesWithout(s.leases, KEY), ledger := a.ledger,
                       log := a.log, calls := a.calls, nextTask := a.nextTask)
            && KEY !in a.pools && s.calls[c].rec in a.gone && a.gone[s.calls[c].rec].spec == SPEC
            && c in a.calls && a.calls[c] == s.calls[c]
            && s.calls[c].vm in a.vms && a.vms[s.calls[c].vm].pool == KEY && Reported(a.log, a.vms[s.calls[c].vm].uid)
  {
    hide Inv, DeletePoolS, InOrder, Reported, Numbers, LoggedDeletions;
    NumbersOk(s);
    Worked(s, c);
    OrderHas(s, order, s.calls[c].vm);
    InOrderTracked(s, KEY, order);
    DeletePoolFields(s, KEY, order);
    PoolDeletionReported(s, KEY, order, s.calls[c].vm);
  }

  /** The Pool of a claim in its hooks is deleted, and created again with another spec. */
  lemma Recreated(s: State, c: CallId, spec: Spec) returns (order: seq<nat>, a: State, t: State)
    requires Inv(s) && InHooks(s, c) && ValidSpec(KEY, spec) && spec.hosts == ["h"]
    ensures Next(s, DeletePool(KEY, true, order), a) && Next(a, CreatePool(KEY, spec), t)
    ensures Outlived(t, c, spec) && t.calls[c] == s.calls[c] && (s.leases == map[] ==> t.leases == map[])
  {
    hide Next, Inv, DeletePoolS, InOrder, Reported;
    order := SomeOrder(PoolVMs(s.vms, KEY));
    DeletedUnder(s, c, order);
    a := DeletePoolS(s, KEY, order);
    t := CreatePoolS(a, KEY, spec);
    PoolsNext(s, a, KEY, spec, order);
    RecBelow(s);
  }

  lemma OrderHas(s: State, order: seq<nat>, v: nat)
    requires InOrder(order, PoolVMs(s.vms, KEY)) && v in s.vms && s.vms[v].pool == KEY
    ensures v in order
  {
    assert v in PoolVMs(s.vms, KEY);
  }

  lemma RecBelow(s: State)
    requires Inv(s) && KEY in s.pools
    ensures s.pools[KEY].rec < s.nextRec
  {
    hide IdsOk, UidsOk, LeasesOk, LedgerOk, WorkersOk, PhasesOk, ClaimsOk, ReleasesOk, CallsOk, RequestsOk, OnceOk, HostsOk, AnswersOk, SweptOk, LogOk;
  }

  /**
   * For every spec of size zero with REPLACE_ON_DELETE or MIN_SIZE_THRESHOLD on the Host, a reachable state of a Pool with it
   * in which one section, the commit of a claim whose Pool was deleted and created again, grants a Lease on a MicroVM whose
   * deletion was reported and takes the population above the larger of the size and what it was; and brings a MicroVM into
   * a Pool that holds the drained spec.
   */
  lemma RecreationHappens(spec: Spec) returns (s: State, c: CallId, l: string, t: State)
    requires ValidSpec(KEY, spec) && spec.hosts == ["h"] && spec.size == 0 && spec.strategy != ImmediateOnLease
    ensures Reachable(s) && Next(s, ClaimCommit(c, None, l), t)
    ensures KEY in s.pools && KEY in t.pools && t.pools[KEY].spec == s.pools[KEY].spec == spec
    ensures l in t.leases && Reported(s.log, t.leases[l].vm)
    ensures Population(t, KEY) > Population(s, KEY) && Population(t, KEY) > spec.size
    ensures IsDrained(spec) ==> exists v :: v in PoolVMs(t.vms, KEY) && v !in PoolVMs(s.vms, KEY)
  {
    hide Next, Reachable, Inv, CommitS, IsPrior, FreshLease, Reported, Warm, PoolVMs, Population;
    var r, cs := ManyClaims(1);
    c :| c in cs;
    ReachableInv(r);
    var order, a;
    order, a, s := Recreated(r, c, spec);
    Onward(r, DeletePool(KEY, true, order), a);
    Onward(a, CreatePool(KEY, spec), s);
    l := NewLeaseId(s);
    ReachableInv(s);
    assert IsPrior(s.leases, "", None) by {
      NoRequest(s);
    }
    t := CommitS(s, c, None, l);
    CommitNext(s, c, l);
    LateBreaks(s, ClaimCommit(c, None, l), t, spec);
  }

  lemma LateBreaks(s: State, step: Step, t: State, spec: Spec)
    requires Inv(s) && Next(s, step, t) && Grants(s, step) && Outlived(s, step.c, spec)
    requires spec.size == 0 && spec.strategy != ImmediateOnLease && spec.hosts == ["h"]
    ensures KEY in t.pools && t.pools[KEY].spec == spec
    ensures step.lease in t.leases && Reported(s.log, t.leases[step.lease].vm)
    ensures Population(t, KEY) > Population(s, KEY) && Population(t, KEY) > spec.size
    ensures IsDrained(spec) ==> exists v :: v in PoolVMs(t.vms, KEY) && v !in PoolVMs(s.vms, KEY)
  {
    hide Next, Inv, Reported, PoolVMs, Population;
    GrantHolds(s, step, t);
    assert LateGrant(s, step, KEY);
    GrantPools(s, step, t);
    BreaksExactly(s, step, t, KEY);
    if IsDrained(spec) {
      DrainedGains(s, step, t, KEY);
    }
  }

  lemma GrantPools(s: State, step: Step, t: State)
    requires Inv(s) && Next(s, step, t) && Grants(s, step)
    ensures PoolsLike(s.pools, t.pools)
  {
    hide Inv, GrantS, Next, Known, Batch, BatchKey, Logged;
    GrantPlaces(s, step, t);
    GrantFields(s, step.c, step.lease);
    GrantBatch(s, step, t);
  }
}
