/**
 * The critical sections of the pool manager as functions on its state.
 * A choice a section makes, or that a Host makes for it, is an argument of its `Step`.
 */
module BatterySections {
  import opened BatteryTypes

  // ----- Shared pieces -----

  predicate Alive(s: State, v: nat) {
    v in s.vms && s.vms[v].pool in s.pools
  }

  function SetPhase(vm: VM, phase: Phase, now: Time): VM {
    vm.(phase := phase, updated := now)
  }

  function SetVm(s: State, v: nat, vm: VM): State {
    s.(vms := s.vms[v := vm])
  }

  function SetCall(s: State, c: CallId, call: Call): State {
    s.(calls := s.calls[c := call])
  }

  function Forget(s: State, v: nat): State
    requires v in s.vms
  {
    s.(vms := s.vms - {v}, byUid := s.byUid - {s.vms[v].uid})
  }

  function SetPool(s: State, key: PoolKey, p: Pool): State {
    s.(pools := s.pools[key := p])
  }

  /** The tracked MicroVM with a uid. */
  function VmOf(s: State, uid: string): (r: Option<nat>)
    ensures r.Some? ==> r.value in s.vms
  {
    if uid in s.byUid && s.byUid[uid] in s.vms then Some(s.byUid[uid]) else None
  }

  function Numbering(pools: map<PoolKey, Pool>, key: PoolKey): map<PoolKey, Pool> {
    if key in pools then pools[key := pools[key].(nextEvent := pools[key].nextEvent + 1)] else pools
  }

  /** The same Pools with the same specs; cursors, event numbers and warnings may differ. */
  ghost predicate PoolsLike(a: map<PoolKey, Pool>, b: map<PoolKey, Pool>) {
    && a.Keys == b.Keys
    && forall k | k in a :: a[k].key == b[k].key && a[k].rec == b[k].rec && a[k].spec == b[k].spec
  }

  /** At most one event was appended, of the given type and MicroVM. */
  ghost predicate Logged(a: seq<Event>, b: seq<Event>, vm: string, typ: EventType) {
    || b == a
    || (|b| == |a| + 1 && b[..|a|] == a && b[|a|].vm == vm && b[|a|].typ == typ)
  }

  /** At most one event was appended, about the given MicroVM. */
  ghost predicate LoggedOf(a: seq<Event>, b: seq<Event>, vm: string) {
    b == a || (|b| == |a| + 1 && b[..|a|] == a && b[|a|].vm == vm)
  }

  /** Appends an event of a Pool that exists, with the Pool's next id. */
  function Emit(s: State, key: PoolKey, vm: string, typ: EventType): (r: State)
    ensures r == s.(pools := r.pools, log := r.log)
    ensures PoolsLike(s.pools, r.pools) && Logged(s.log, r.log, vm, typ)
  {
    s.(pools := Numbering(s.pools, key),
       log := if key in s.pools
              then s.log + [Event(key, s.pools[key].rec, s.pools[key].nextEvent + 1, vm, typ)]
              else s.log)
  }

  function Unwarned(pools: map<PoolKey, Pool>, key: PoolKey, l: string): map<PoolKey, Pool> {
    if key in pools then pools[key := pools[key].(warned := pools[key].warned - {l})] else pools
  }

  /** Forgets a Lease and everything recorded against it. */
  function DropLease(s: State, l: string, cause: Cause): (r: State)
    ensures r == s.(leases := r.leases, ledger := r.ledger, pools := r.pools)
    ensures PoolsLike(s.pools, r.pools)
  {
    s.(leases := s.leases - {l},
       ledger := if l in s.leases then s.ledger[l := Entry(s.leases[l], Some(cause))] else s.ledger,
       pools := if l in s.leases then Unwarned(s.pools, s.leases[l].pool, l) else s.pools)
  }

  function Spawn(s: State, call: Call): State {
    s.(calls := s.calls[Task(s.nextTask) := call], nextTask := s.nextTask + 1)
  }

  function SpawnAll(s: State, calls: seq<Call>): (r: State)
    ensures r == s.(calls := r.calls, nextTask := r.nextTask)
    decreases |calls|
  {
    if calls == [] then s else Spawn(SpawnAll(s, calls[..|calls| - 1]), calls[|calls| - 1])
  }

  function End(s: State, c: CallId): State {
    s.(calls := s.calls - {c})
  }

  function Tell(s: State, c: CallId, reply: Reply): State {
    s.(answers := s.answers[c := reply])
  }

  function Finish(s: State, c: CallId, reply: Reply): State {
    Tell(End(s, c), c, reply)
  }

  /** Ends a deletion; only a ReleaseVM waits for an answer to it. */
  function FinishDeletion(s: State, c: CallId, release: string, answer: Answer): (r: State)
    ensures r == s.(calls := r.calls, answers := r.answers)
  {
    End(s, c).(answers := if c.Rpc? then s.answers[c := Released(release, answer)] else s.answers)
  }

  // ----- Counting and placement -----

  ghost function Members(vms: map<nat, VM>, key: PoolKey, phases: set<Phase>): set<nat> {
    set v | v in vms && vms[v].pool == key && vms[v].phase in phases
  }

  ghost function Count(vms: map<nat, VM>, key: PoolKey, phases: set<Phase>): nat {
    |Members(vms, key, phases)|
  }

  const LEASED: set<Phase> := {Leased, PreLeaseHookRunning}
  const PROVISIONING: set<Phase> := {Provisioning, CreateHookRunning}

  function OnClaimed(spec: Spec): nat {
    if spec.strategy == ImmediateOnLease then 1 else 0
  }

  function OnDeleted(spec: Spec): nat {
    if spec.strategy == ReplaceOnDelete then 1 else 0
  }

  function Positive(n: int): nat { if n > 0 then n else 0 }

  function MinSize(spec: Spec): int {
    if spec.minSize.Some? then spec.minSize.value else 0
  }

  function TickDeficit(spec: Spec, available: nat, leased: nat, provisioning: nat, deleting: nat): nat {
    match spec.strategy
    case ImmediateOnLease => Positive(spec.size - (available + provisioning))
    case MinSizeThreshold =>
      if available >= MinSize(spec) then 0
      else Positive(spec.size - (available + leased + provisioning))
    case ReplaceOnDelete => Positive(spec.size - (available + leased + provisioning + deleting))
  }

  ghost function Deficit(s: State, key: PoolKey): nat
    requires key in s.pools
  {
    TickDeficit(s.pools[key].spec,
                Count(s.vms, key, {Available}), Count(s.vms, key, LEASED),
                Count(s.vms, key, PROVISIONING), Count(s.vms, key, {Deleting}))
  }

  predicate Eligible(hosts: map<string, Host>, h: string) {
    h in hosts && !hosts[h].cordoned
  }

  function Candidates(hosts: map<string, Host>, names: seq<string>): (r: seq<string>)
    ensures forall h :: h in r <==> h in names && Eligible(hosts, h)
  {
    if names == [] then []
    else
      var rest := Candidates(hosts, names[..|names| - 1]);
      var last := names[|names| - 1];
      assert names == names[..|names| - 1] + [last];
      if Eligible(hosts, last) then rest + [last] else rest
  }

  ghost function OnHost(vms: map<nat, VM>, key: PoolKey, h: string): set<nat> {
    set v | v in vms && vms[v].pool == key && vms[v].host == h && vms[v].phase != Deleting
  }

  ghost function Load(vms: map<nat, VM>, key: PoolKey, h: string): nat {
    |OnHost(vms, key, h)|
  }

  /** The first of the least loaded candidates. */
  ghost function Least(vms: map<nat, VM>, key: PoolKey, hs: seq<string>): (h: string)
    requires hs != []
    ensures h in hs
    ensures forall g | g in hs :: Load(vms, key, h) <= Load(vms, key, g)
  {
    var last := hs[|hs| - 1];
    if |hs| == 1 then last
    else
      var best := Least(vms, key, hs[..|hs| - 1]);
      assert hs == hs[..|hs| - 1] + [last];
      if Load(vms, key, last) < Load(vms, key, best) then last else best
  }

  ghost function Pick(s: State, p: Pool): (h: Option<string>)
    ensures h.Some? ==> h.value in p.spec.hosts && Eligible(s.hosts, h.value)
    ensures h.None? ==> forall g | g in p.spec.hosts :: !Eligible(s.hosts, g)
  {
    var hs := Candidates(s.hosts, p.spec.hosts);
    if hs == [] then
      assert forall g | g in p.spec.hosts :: Eligible(s.hosts, g) ==> g in hs;
      None
    else if s.placement == RoundRobin then
      assert hs[p.rr % |hs|] in hs;
      Some(hs[p.rr % |hs|])
    else Some(Least(s.vms, p.key, hs))
  }

  predicate Current(s: State, key: PoolKey, rec: nat) {
    key in s.pools && s.pools[key].rec == rec
  }

  predicate Known(s: State, key: PoolKey, rec: nat) {
    Current(s, key, rec) || rec in s.gone
  }

  /** The record a claim took when it began, as it is now. */
  function Record(s: State, key: PoolKey, rec: nat): Pool
    requires Known(s, key, rec)
  {
    if Current(s, key, rec) then s.pools[key] else s.gone[rec]
  }

  function NewVM(key: PoolKey, policy: Policy, h: string, now: Time): VM {
    VM("", key, h, Provisioning, "", policy, None, false, false, now)
  }

  function Rotate(p: Pool, placement: Placement): Pool {
    if placement == RoundRobin then p.(rr := p.rr + 1) else p
  }

  /** Reserves one MicroVM on `h` for the Pool. */
  function Place(s: State, key: PoolKey, rec: nat, h: string): (r: State)
    requires Known(s, key, rec)
    ensures Known(r, key, rec)
  {
    var p := Record(s, key, rec);
    var v := s.nextVM + 1;
    s.(pools := if Current(s, key, rec) then s.pools[key := Rotate(p, s.placement)] else s.pools,
       gone := if Current(s, key, rec) then s.gone else s.gone[rec := Rotate(p, s.placement)],
       nextVM := v,
       vms := s.vms[v := NewVM(key, p.spec.policy, h, s.now)],
       calls := s.calls[Task(s.nextTask) := Placed(v)],
       nextTask := s.nextTask + 1)
  }

  ghost function Reserve(s: State, key: PoolKey, rec: nat, n: nat): (r: State)
    requires Known(s, key, rec)
    ensures r == s.(pools := r.pools, gone := r.gone, nextVM := r.nextVM, vms := r.vms, calls := r.calls, nextTask := r.nextTask)
    decreases n
  {
    if n == 0 then s
    else
      var h := Pick(s, Record(s, key, rec));
      if h.None? then s else Reserve(Place(s, key, rec, h.value), key, rec, n - 1)
  }

  ghost function ProvisionN(s: State, key: PoolKey, rec: nat, n: nat): (r: State)
    requires Known(s, key, rec)
    ensures r == s.(pools := r.pools, gone := r.gone, nextVM := r.nextVM, vms := r.vms, calls := r.calls, nextTask := r.nextTask,
                    log := r.log)
  {
    if n == 0 || !s.running then s
    else
      var t := Reserve(s, key, rec, n);
      if t.nextVM == s.nextVM then t else Emit(t, key, "", PoolReplenishing)
  }

  // ----- Pools -----

  predicate ValidSpec(key: PoolKey, spec: Spec) {
    && key.name != "" && key.namespace != ""
    && (spec.strategy == MinSizeThreshold ==> spec.minSize.Some? && spec.minSize.value > 0)
    && spec.size >= 0
    && spec.threshold > 0
  }

  predicate HostsHeld(hosts: map<string, Host>, spec: Spec) {
    forall h | h in spec.hosts :: h in hosts
  }

  predicate Accepted(s: State, key: PoolKey, spec: Spec) {
    ValidSpec(key, spec) && HostsHeld(s.hosts, spec)
  }

  function CreatePoolS(s: State, key: PoolKey, spec: Spec): State {
    var ok := Accepted(s, key, spec) && key !in s.pools;
    s.(pools := if ok then s.pools[key := Pool(key, s.nextRec, spec, 0, 0, true, map[])] else s.pools,
       nextRec := if ok then s.nextRec + 1 else s.nextRec)
  }

  function UpdatePoolS(s: State, key: PoolKey, spec: Spec): State {
    s.(pools := if Accepted(s, key, spec) && key in s.pools then s.pools[key := s.pools[key].(spec := spec, unfilled := true)]
                else s.pools)
  }

  ghost function PoolVMs(vms: map<nat, VM>, key: PoolKey): set<nat> {
    set v | v in vms && vms[v].pool == key
  }

  /** The MicroVMs of a Pool in the order of their ids. */
  ghost predicate InOrder(order: seq<nat>, vms: set<nat>) {
    && (forall i, j | 0 <= i < j < |order| :: order[i] < order[j])
    && (forall v :: v in order <==> v in vms)
  }

  ghost predicate InUse(vms: map<nat, VM>, key: PoolKey) {
    exists v :: v in vms && vms[v].pool == key && vms[v].phase in LEASED
  }

  function Marked(vm: VM, now: Time): VM {
    vm.(phase := Deleting, updated := now, lease := "", deleteEvent := None)
  }

  /** Records the deletion of each MicroVM that has a uid. */
  function EmitDeleted(s: State, key: PoolKey, order: seq<nat>): (r: State)
    ensures r == s.(pools := r.pools, log := r.log)
    ensures PoolsLike(s.pools, r.pools)
    decreases |order|
  {
    if order == [] then s
    else
      var t := EmitDeleted(s, key, order[..|order| - 1]);
      var v := order[|order| - 1];
      if v in s.vms && s.vms[v].uid != "" then Emit(t, key, s.vms[v].uid, VmDeletedOnPoolDelete) else t
  }

  function PoolDeletions(order: seq<nat>): (r: seq<Call>) {
    seq(|order|, i requires 0 <= i < |order| => DeleteWanted(order[i], None, ""))
  }

  function MarkAll(vms: map<nat, VM>, key: PoolKey, now: Time): map<nat, VM> {
    map v | v in vms :: if vms[v].pool == key then Marked(vms[v], now) else vms[v]
  }

  function LeasesOf(leases: map<string, Lease>, key: PoolKey): set<string> {
    set l | l in leases && leases[l].pool == key
  }

  function LeasesWithout(leases: map<string, Lease>, key: PoolKey): map<string, Lease> {
    map l | l in leases && leases[l].pool != key :: leases[l]
  }

  function LedgerWithout(ledger: map<string, Entry>, leases: map<string, Lease>, key: PoolKey): map<string, Entry> {
    map l | l in ledger ::
      if l in leases && leases[l].pool == key then Entry(leases[l], Some(PoolGone)) else ledger[l]
  }

  function DeletePoolS(s: State, key: PoolKey, order: seq<nat>): State
    requires key in s.pools
  {
    var t := EmitDeleted(s, key, order);
    var p := if key in t.pools then t.pools[key] else s.pools[key];
    var u := t.(
      pools := t.pools - {key},
      gone := t.gone[p.rec := p.(warned := p.warned - LeasesOf(s.leases, key))],
      vms := MarkAll(s.vms, key, s.now),
      leases := LeasesWithout(s.leases, key),
      ledger := LedgerWithout(s.ledger, s.leases, key));
    SpawnAll(u, PoolDeletions(order))
  }

  // ----- Hosts -----

  function AddHostS(s: State, name: string, address: string, connected: bool): State {
    s.(hosts := if name == "" || address == "" || name in s.hosts then s.hosts
                else s.hosts[name := Host(address, false, connected)])
  }

  function UpdateHostS(s: State, name: string, address: string, connected: bool): State {
    s.(hosts := if name == "" || address == "" || name !in s.hosts then s.hosts
                else s.hosts[name := s.hosts[name].(address := address, connected := connected)])
  }

  ghost predicate Named(pools: map<PoolKey, Pool>, name: string) {
    exists k :: k in pools && name in pools[k].spec.hosts
  }

  ghost predicate Occupied(vms: map<nat, VM>, name: string) {
    exists v :: v in vms && vms[v].host == name
  }

  ghost function RemoveHostS(s: State, name: string): State {
    s.(hosts := if Named(s.pools, name) || Occupied(s.vms, name) then s.hosts else s.hosts - {name})
  }

  function SetCordonedS(s: State, name: string, cordoned: bool): State {
    s.(hosts := if name in s.hosts then s.hosts[name := s.hosts[name].(cordoned := cordoned)] else s.hosts)
  }

  // ----- Claims -----

  /** `prior` is the held Lease that was created with the request id, if there is one. */
  ghost predicate IsPrior(leases: map<string, Lease>, request: string, prior: Option<string>): (r: bool)
    ensures r && prior.Some? ==> prior.value in leases
  {
    match prior
    case Some(l) => request != "" && l in leases && leases[l].request == request
    case None => request == "" || forall l | l in leases :: leases[l].request != request
  }

  predicate IsAvailable(vms: map<nat, VM>, key: PoolKey, v: nat) {
    v in vms && vms[v].pool == key && vms[v].phase == Available
  }

  predicate Older(vms: map<nat, VM>, v: nat, w: nat)
    requires v in vms && w in vms
  {
    vms[v].updated < vms[w].updated || (vms[v].updated == vms[w].updated && v <= w)
  }

  /** `vm` is the MicroVM that has been available longest, if any is available. */
  ghost predicate IsOldest(vms: map<nat, VM>, key: PoolKey, vm: Option<nat>): (r: bool)
    ensures r && vm.Some? ==> vm.value in vms
  {
    match vm
    case Some(v) => IsAvailable(vms, key, v) && forall w | IsAvailable(vms, key, w) :: Older(vms, v, w)
    case None => forall w :: !IsAvailable(vms, key, w)
  }

  function Replay(s: State, l: string, key: PoolKey): Answer
    requires l in s.leases
  {
    var lease := s.leases[l];
    var vm := VmOf(s, lease.vm);
    if lease.pool != key then InvalidArgument
    else if vm.None? || s.vms[vm.value].phase == Deleting then Aborted
    else Granted(l, lease.vm, s.vms[vm.value].host)
  }

  /** The answer of a claim that takes no MicroVM; `vm` is the one it would take. */
  function Early(s: State, key: PoolKey, request: string, prior: Option<string>, vm: Option<nat>)
    : (r: Option<Answer>)
    requires prior.Some? ==> prior.value in s.leases
    ensures r.None? ==> key in s.pools && vm.Some?
  {
    if |request| > MAX_REQUEST_ID then Some(InvalidArgument)
    else if key !in s.pools then Some(NotFound)
    else if prior.Some? then Some(Replay(s, prior.value, key))
    else if vm.None? then Some(Exhausted)
    else None
  }

  function SelectS(s: State, c: CallId, key: PoolKey, request: string, prior: Option<string>, vm: Option<nat>)
    : State
    requires prior.Some? ==> prior.value in s.leases
    requires vm.Some? ==> vm.value in s.vms
  {
    var early := Early(s, key, request, prior, vm);
    if early.Some? then Finish(s, c, Claimed(key, request, early.value))
    else
      var v := vm.value;
      SetCall(SetVm(s, v, SetPhase(s.vms[v], PreLeaseHookRunning, s.now)),
              c, Claiming(v, s.pools[key].rec, key, request))
  }

  function NewLease(vm: VM, call: Call, now: Time, threshold: Time): Lease
    requires call.Claiming?
  {
    Lease(vm.uid, call.key, now, now, now + threshold, call.request)
  }

  function StoreLease(s: State, l: string, lease: Lease): State {
    s.(leases := s.leases[l := lease], ledger := s.ledger[l := Entry(lease, None)])
  }

  function Grant(s: State, v: nat, l: string, lease: Lease): State
    requires v in s.vms
  {
    StoreLease(SetVm(s, v, SetPhase(s.vms[v], Leased, s.now).(lease := l)), l, lease)
  }

  /** The Lease is stored and its MicroVM leased; replenishment follows. */
  function GrantS(s: State, c: CallId, l: string): State
    requires c in s.calls && s.calls[c].Claiming? && s.calls[c].vm in s.vms
    requires Known(s, s.calls[c].key, s.calls[c].rec)
  {
    var call := s.calls[c];
    var vm := s.vms[call.vm];
    var lease := NewLease(vm, call, s.now, Record(s, call.key, call.rec).spec.threshold);
    var t := Grant(End(s, c), call.vm, l, lease);
    Emit(Tell(t, c, Claimed(call.key, call.request, Granted(l, vm.uid, vm.host))), call.key, vm.uid, VmClaimed)
  }

  /** A second claim with the request id puts its MicroVM back. */
  function YieldS(s: State, c: CallId, prior: string): State
    requires c in s.calls && s.calls[c].Claiming? && s.calls[c].vm in s.vms && prior in s.leases
  {
    var call := s.calls[c];
    var t := SetVm(s, call.vm, SetPhase(s.vms[call.vm], Available, s.now).(lease := ""));
    Finish(t, c, Claimed(call.key, call.request, Replay(t, prior, call.key)))
  }

  ghost function CommitS(s: State, c: CallId, prior: Option<string>, l: string): State
    requires c in s.calls && s.calls[c].Claiming?
    requires Known(s, s.calls[c].key, s.calls[c].rec)
    requires prior.Some? ==> prior.value in s.leases
  {
    var call := s.calls[c];
    if !Alive(s, call.vm) then Finish(s, c, Claimed(call.key, call.request, NotFound))
    else if prior.Some? then YieldS(s, c, prior.value)
    else
      ProvisionN(GrantS(s, c, l), call.key, call.rec, OnClaimed(Record(s, call.key, call.rec).spec))
  }

  /** What the hook failure policy does to a MicroVM whose hook failed. */
  function HookPolicyS(s: State, v: nat, policy: Policy): State
    requires v in s.vms
  {
    var vm := s.vms[v].(lease := "");
    var phase := if policy == Quarantine then Quarantined else Deleting;
    var t := Emit(SetVm(s, v, SetPhase(vm, phase, s.now)), vm.pool, vm.uid, VmHookFailed);
    if policy == Quarantine then t else Spawn(t, DeleteWanted(v, None, ""))
  }

  function ClaimFailS(s: State, c: CallId): State
    requires c in s.calls && s.calls[c].Claiming?
  {
    var v := s.calls[c].vm;
    var t := Finish(s, c, Claimed(s.calls[c].key, s.calls[c].request, Internal));
    if !Alive(s, v) then t else HookPolicyS(t, v, s.pools[s.vms[v].pool].spec.policy)
  }

  // ----- Leases -----

  function Renewed(lease: Lease, now: Time, threshold: Time): Lease {
    lease.(heartbeatAt := now, expiresAt := now + threshold)
  }

  function HeartbeatS(s: State, l: string): State {
    if l !in s.leases || s.leases[l].pool !in s.pools then s
    else
      StoreLease(s, l, Renewed(s.leases[l], s.now, s.pools[s.leases[l].pool].spec.threshold))
  }

  /** A release is reported once for each MicroVM. */
  function ReportRelease(s: State, v: nat, key: PoolKey): State
    requires v in s.vms
  {
    if s.vms[v].released then s else Emit(SetVm(s, v, s.vms[v].(released := true)), key, s.vms[v].uid, VmReleased)
  }

  function ReleaseS(s: State, c: CallId, l: string): State {
    if l !in s.leases then Finish(s, c, Released(l, NotFound))
    else
      var vm := VmOf(s, s.leases[l].vm);
      if vm.None? then Finish(DropLease(s, l, VmGone), c, Released(l, Done))
      else
        var v := vm.value;
        SetCall(ReportRelease(s, v, s.leases[l].pool), c, DeleteWanted(v, Some(VmDeletedOnRelease), l))
  }

  // ----- Provisioning -----

  function ProvDropS(s: State, c: CallId): State
    requires c in s.calls && s.calls[c].Placed?
  {
    End(s.(vms := s.vms - {s.calls[c].vm}), c)
  }

  /** The Host has created the MicroVM and named it. */
  function Name(s: State, c: CallId, v: nat, uid: string): State
    requires v in s.vms
  {
    SetCall(SetVm(s, v, s.vms[v].(uid := uid, updated := s.now)), c, Created(v))
    .(byUid := s.byUid[uid := v], uids := s.uids + {uid})
  }

  function ProvCreateS(s: State, c: CallId, uid: string): State
    requires c in s.calls && s.calls[c].Placed?
  {
    var v := s.calls[c].vm;
    if !Alive(s, v) then End(s.(uids := s.uids + {uid}), c)
    else Emit(Name(s, c, v, uid), s.vms[v].pool, uid, VmProvisioned)
  }

  function ProvHookS(s: State, c: CallId): State
    requires c in s.calls && s.calls[c].Created?
  {
    var v := s.calls[c].vm;
    if !Alive(s, v) then End(s, c)
    else SetCall(SetVm(s, v, SetPhase(s.vms[v], CreateHookRunning, s.now)), c, Hooking(v))
  }

  function ProvFailS(s: State, c: CallId): State
    requires c in s.calls && (s.calls[c].Created? || s.calls[c].Hooking?)
  {
    var v := s.calls[c].vm;
    var t := End(s, c);
    if !Alive(s, v) then t else HookPolicyS(t, v, s.vms[v].createPolicy)
  }

  function ProvReadyS(s: State, c: CallId): State
    requires c in s.calls && s.calls[c].Hooking?
  {
    var v := s.calls[c].vm;
    var t := End(s, c);
    if !Alive(s, v) then t
    else Emit(SetVm(t, v, SetPhase(s.vms[v], Available, s.now)), s.vms[v].pool, s.vms[v].uid, VmAvailable)
  }

  // ----- Deletion -----

  /** On its way out; an event given replaces the one recorded before. */
  function Doomed(vm: VM, event: Option<EventType>, now: Time): (r: VM)
    ensures r.phase == Deleting && r.inFlight
    ensures r == vm.(phase := r.phase, released := r.released, inFlight := r.inFlight,
                     updated := r.updated, deleteEvent := r.deleteEvent)
  {
    SetPhase(vm, Deleting, now).(deleteEvent := if event.Some? then event else vm.deleteEvent, inFlight := true)
  }

  function DelMarkS(s: State, c: CallId): State
    requires c in s.calls && s.calls[c].DeleteWanted?
  {
    var call := s.calls[c];
    var v := call.vm;
    if v !in s.vms then FinishDeletion(s, c, call.release, Done)
    else
      var t := SetVm(s, v, Doomed(s.vms[v], call.event, s.now));
      if s.vms[v].inFlight then FinishDeletion(t, c, call.release, Unavailable) else SetCall(t, c, DeleteOnHost(v, call.release))
  }

  function DelFailS(s: State, c: CallId): State
    requires c in s.calls && s.calls[c].DeleteOnHost?
  {
    var v := s.calls[c].vm;
    var t := FinishDeletion(s, c, s.calls[c].release, Unavailable);
    if v !in s.vms then t else SetVm(t, v, s.vms[v].(inFlight := false))
  }

  /** The MicroVM and its Lease are forgotten. */
  function RemoveS(s: State, v: nat): State
    requires v in s.vms
  {
    DropLease(Forget(s, v), s.vms[v].lease, VmGone)
  }

  function EmitEnd(s: State, vm: VM): (r: State)
    ensures r == s.(pools := r.pools, log := r.log)
    ensures PoolsLike(s.pools, r.pools) && LoggedOf(s.log, r.log, vm.uid)
  {
    if vm.deleteEvent.Some? then Emit(s, vm.pool, vm.uid, vm.deleteEvent.value) else s
  }

  ghost function DelFinishS(s: State, c: CallId): State
    requires c in s.calls && s.calls[c].DeleteOnHost?
  {
    var v := s.calls[c].vm;
    var t := FinishDeletion(s, c, s.calls[c].release, Done);
    if v !in s.vms then t
    else
      var vm := s.vms[v];
      var w := EmitEnd(RemoveS(t, v), vm);
      if vm.pool !in w.pools then w
      else ProvisionN(w, vm.pool, w.pools[vm.pool].rec, OnDeleted(w.pools[vm.pool].spec))
  }

  // ----- The tick -----

  function SweepS(s: State, l: string): State
    requires l in s.leases
  {
    var vm := VmOf(s, s.leases[l].vm);
    var t := DropLease(s, l, Swept);
    if vm.Some? && s.vms[vm.value].phase == Leased
    then Spawn(t, DeleteWanted(vm.value, Some(VmDeletedDueToExpiry), ""))
    else t
  }

  function WarningWindow(spec: Spec): Time {
    if spec.interval > 0 then spec.interval else spec.threshold / 2
  }

  function WarnS(s: State, l: string): State
    requires l in s.leases && s.leases[l].pool in s.pools
  {
    var lease := s.leases[l];
    var p := s.pools[lease.pool];
    Emit(SetPool(s, lease.pool, p.(warned := p.warned[l := lease.expiresAt])), lease.pool, lease.vm, VmExpiringSoon)
  }

  predicate Due(lease: Lease, p: Pool, l: string, t: Time) {
    && lease.expiresAt > t
    && lease.expiresAt - t <= WarningWindow(p.spec)
    && !(l in p.warned && p.warned[l] == lease.expiresAt)
  }

  predicate DueWarning(s: State, l: string, t: Time)
    requires l in s.leases && s.leases[l].pool in s.pools
  {
    Due(s.leases[l], s.pools[s.leases[l].pool], l, t)
  }

  predicate RetryDue(vms: map<nat, VM>, v: nat) {
    v in vms && vms[v].phase == Deleting && vms[v].uid != "" && !vms[v].inFlight
  }

  ghost function TickPoolS(s: State, key: PoolKey): State
    requires key in s.pools
  {
    var n := Deficit(s, key);
    var t := SetPool(s, key, s.pools[key].(unfilled := false));
    var u := if n > 0 && !s.pools[key].unfilled then Emit(t, key, "", PoolSizeBelowTarget) else t;
    ProvisionN(u, key, u.pools[key].rec, n)
  }

  // ----- Steps -----

  datatype Step =
    | Advance(t: Time)
    | Start
    | CreatePool(key: PoolKey, spec: Spec)
    | UpdatePool(key: PoolKey, spec: Spec)
    | DeletePool(key: PoolKey, force: bool, order: seq<nat>)
    | AddHost(name: string, address: string, connected: bool)
    | UpdateHost(name: string, address: string, connected: bool)
    | RemoveHost(name: string)
    | SetCordoned(name: string, cordoned: bool)
    | ClaimSelect(c: CallId, key: PoolKey, request: string, prior: Option<string>, vm: Option<nat>)
    | ClaimCommit(c: CallId, prior: Option<string>, lease: string)
    | ClaimFail(c: CallId)
    | Heartbeat(lease: string)
    | Release(c: CallId, lease: string)
    | ProvDrop(c: CallId)
    | ProvCreate(c: CallId, uid: string)
    | ProvHook(c: CallId)
    | ProvFail(c: CallId)
    | ProvReady(c: CallId)
    | DelMark(c: CallId)
    | DelFail(c: CallId)
    | DelFinish(c: CallId)
    | Sweep(lease: string, t: Time)
    | Warn(lease: string, t: Time)
    | Retry(v: nat)
    | TickPool(key: PoolKey)

  /** A step that settles or fails a provisioning or a deletion. */
  predicate Routine(step: Step) {
    step.ProvDrop? || step.ProvCreate? || step.ProvHook? || step.ProvFail? || step.ProvReady?
    || step.DelMark? || step.DelFail? || step.DelFinish?
  }

  /** A lease id that was never granted and that nobody ever named. */
  ghost predicate FreshLease(s: State, l: string) {
    l != "" && l !in s.ledger && forall c | c in s.answers && s.answers[c].Released? :: s.answers[c].lease != l
  }

  ghost predicate NewRpc(s: State, c: CallId) {
    c.Rpc? && c !in s.calls && c !in s.answers
  }

  ghost predicate MaySelect(s: State, c: CallId, key: PoolKey, request: string, prior: Option<string>, vm: Option<nat>) {
    NewRpc(s, c) && IsPrior(s.leases, request, prior) && IsOldest(s.vms, key, vm)
  }

  ghost predicate MayCommit(s: State, c: CallId, prior: Option<string>, l: string) {
    && c in s.calls && s.calls[c].Claiming?
    && Known(s, s.calls[c].key, s.calls[c].rec)
    && IsPrior(s.leases, s.calls[c].request, prior)
    && FreshLease(s, l)
  }

  /** A step of an administrator, or of the world around the manager. */
  predicate Admin(step: Step) {
    step.Advance? || step.Start? || step.CreatePool? || step.UpdatePool? || step.DeletePool?
    || step.AddHost? || step.UpdateHost? || step.RemoveHost? || step.SetCordoned?
  }

  /** A step of a client that claims, renews or releases. */
  predicate Leasing(step: Step) {
    step.ClaimSelect? || step.ClaimCommit? || step.ClaimFail? || step.Heartbeat? || step.Release?
  }

  /** A step of the control loop. */
  predicate Ticking(step: Step) {
    step.Sweep? || step.Warn? || step.Retry? || step.TickPool?
  }

  ghost predicate MayAdmin(s: State, step: Step) {
    match step
    case Advance(t) => s.now <= t
    case DeletePool(key, force, order) =>
      key in s.pools && (force || !InUse(s.vms, key)) && InOrder(order, PoolVMs(s.vms, key))
    case _ => true
  }

  ghost predicate MayLease(s: State, step: Step) {
    match step
    case ClaimSelect(c, key, request, prior, vm) => MaySelect(s, c, key, request, prior, vm)
    case ClaimCommit(c, prior, l) => MayCommit(s, c, prior, l)
    case ClaimFail(c) => c in s.calls && s.calls[c].Claiming?
    case Release(c, _) => NewRpc(s, c)
    case _ => true
  }

  predicate MayRoutine(s: State, step: Step) {
    match step
    case ProvDrop(c) => c in s.calls && s.calls[c].Placed?
    case ProvCreate(c, uid) => c in s.calls && s.calls[c].Placed? && uid != "" && uid !in s.uids
    case ProvHook(c) => c in s.calls && s.calls[c].Created?
    case ProvFail(c) => c in s.calls && (s.calls[c].Created? || s.calls[c].Hooking?)
    case ProvReady(c) => c in s.calls && s.calls[c].Hooking?
    case DelMark(c) => c in s.calls && s.calls[c].DeleteWanted?
    case DelFail(c) => c in s.calls && s.calls[c].DeleteOnHost?
    case DelFinish(c) => c in s.calls && s.calls[c].DeleteOnHost?
    case _ => true
  }

  predicate MayTick(s: State, step: Step) {
    match step
    case Sweep(l, t) => t <= s.now && l in s.leases && s.leases[l].pool in s.pools && s.leases[l].expiresAt <= t
    case Warn(l, t) => t <= s.now && l in s.leases && s.leases[l].pool in s.pools && DueWarning(s, l, t)
    case Retry(v) => RetryDue(s.vms, v)
    case TickPool(key) => key in s.pools
    case _ => true
  }

  /** When a section may run, and which choices it may make. */
  ghost predicate Enabled(s: State, step: Step) {
    if Admin(step) then MayAdmin(s, step)
    else if Leasing(step) then MayLease(s, step)
    else if Routine(step) then MayRoutine(s, step)
    else MayTick(s, step)
  }

  ghost function DoAdmin(s: State, step: Step): State
    requires Admin(step) && MayAdmin(s, step)
  {
    match step
    case Advance(t) => s.(now := t)
    case Start => s.(running := true)
    case CreatePool(key, spec) => CreatePoolS(s, key, spec)
    case UpdatePool(key, spec) => UpdatePoolS(s, key, spec)
    case DeletePool(key, _, order) => DeletePoolS(s, key, order)
    case AddHost(name, address, connected) => AddHostS(s, name, address, connected)
    case UpdateHost(name, address, connected) => UpdateHostS(s, name, address, connected)
    case RemoveHost(name) => RemoveHostS(s, name)
    case SetCordoned(name, cordoned) => SetCordonedS(s, name, cordoned)
  }

  ghost function DoLease(s: State, step: Step): State
    requires Leasing(step) && MayLease(s, step)
  {
    match step
    case ClaimSelect(c, key, request, prior, vm) => SelectS(s, c, key, request, prior, vm)
    case ClaimCommit(c, prior, l) => CommitS(s, c, prior, l)
    case ClaimFail(c) => ClaimFailS(s, c)
    case Heartbeat(l) => HeartbeatS(s, l)
    case Release(c, l) => ReleaseS(s, c, l)
  }

  ghost function DoRoutine(s: State, step: Step): State
    requires Routine(step) && MayRoutine(s, step)
  {
    match step
    case ProvDrop(c) => ProvDropS(s, c)
    case ProvCreate(c, uid) => ProvCreateS(s, c, uid)
    case ProvHook(c) => ProvHookS(s, c)
    case ProvFail(c) => ProvFailS(s, c)
    case ProvReady(c) => ProvReadyS(s, c)
    case DelMark(c) => DelMarkS(s, c)
    case DelFail(c) => DelFailS(s, c)
    case DelFinish(c) => DelFinishS(s, c)
  }

  ghost function DoTick(s: State, step: Step): State
    requires Ticking(step) && MayTick(s, step)
  {
    match step
    case Sweep(l, _) => SweepS(s, l)
    case Warn(l, _) => WarnS(s, l)
    case Retry(v) => Spawn(s, DeleteWanted(v, None, ""))
    case TickPool(key) => TickPoolS(s, key)
  }

  ghost function Apply(s: State, step: Step): State
    requires Enabled(s, step)
  {
    if Admin(step) then DoAdmin(s, step)
    else if Leasing(step) then DoLease(s, step)
    else if Routine(step) then DoRoutine(s, step)
    else DoTick(s, step)
  }

  ghost predicate Next(s: State, step: Step, t: State) {
    Enabled(s, step) && t == Apply(s, step)
  }

  ghost predicate NextAt(states: seq<State>, steps: seq<Step>, i: nat)
    requires i < |steps| && |states| == |steps| + 1
  {
    Next(states[i], steps[i], states[i + 1])
  }

  /** The states a run of steps passes through, the first and the last included. */
  ghost predicate Run(states: seq<State>, steps: seq<Step>) {
    |states| == |steps| + 1 && forall i: nat | i < |steps| :: NextAt(states, steps, i)
  }
}
