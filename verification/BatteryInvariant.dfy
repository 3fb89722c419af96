/** What every section of the pool manager keeps, over any interleaving of calls. */
module BatteryInvariant {
  import opened BatteryTypes
  import opened BatterySections

  ghost predicate PoolsOk(pools: map<PoolKey, Pool>, gone: map<nat, Pool>, nextRec: nat) {
    && (forall k | k in pools :: pools[k].key == k && pools[k].rec < nextRec && pools[k].rec !in gone)
    && (forall j, k | j in pools && k in pools && pools[j].rec == pools[k].rec :: j == k)
    && (forall r | r in gone :: r < nextRec)
  }

  ghost predicate IdsOk(vms: map<nat, VM>, nextVM: nat, calls: map<CallId, Call>, nextTask: nat) {
    && (forall v | v in vms :: v <= nextVM)
    && (forall c | c in calls :: calls[c].vm <= nextVM && (c.Task? ==> c.n < nextTask))
  }

  /** A uid belongs to one MicroVM, and the index finds it. */
  ghost predicate UidsOk(vms: map<nat, VM>, byUid: map<string, nat>, uids: set<string>) {
    && (forall u | u in byUid :: u != "" && u in uids && byUid[u] in vms && vms[byUid[u]].uid == u)
    && (forall v | v in vms && vms[v].uid != "" :: vms[v].uid in byUid && byUid[vms[v].uid] == v)
  }

  /** A held Lease names a tracked MicroVM that points back to it. */
  ghost predicate Backed(l: string, lease: Lease, vms: map<nat, VM>, byUid: map<string, nat>) {
    && lease.vm in byUid
    && byUid[lease.vm] in vms
    && var vm := vms[byUid[lease.vm]];
       vm.lease == l && vm.pool == lease.pool && (vm.phase == Leased || vm.phase == Deleting)
  }

  ghost predicate LeasesOk(leases: map<string, Lease>, vms: map<nat, VM>, byUid: map<string, nat>,
                           pools: map<PoolKey, Pool>)
  {
    forall l | l in leases :: l != "" && leases[l].pool in pools && Backed(l, leases[l], vms, byUid)
  }

  /** A request id belongs to one held Lease. */
  ghost predicate RequestsOk(leases: map<string, Lease>) {
    forall l, m | l in leases && m in leases && leases[l].request == leases[m].request != "" :: l == m
  }

  /** The ledger has every Lease ever granted, held or ended. */
  ghost predicate LedgerOk(ledger: map<string, Entry>, leases: map<string, Lease>, uids: set<string>) {
    && (forall l :: l in leases <==> l in ledger && ledger[l].cause.None?)
    && (forall l | l in leases :: ledger[l].lease == leases[l])
    && (forall l | l in ledger :: l != "" && ledger[l].lease.vm != "" && ledger[l].lease.vm in uids)
  }

  /** No two Leases, held or ended, were ever granted for one MicroVM. */
  ghost predicate OnceOk(ledger: map<string, Entry>) {
    forall l, m | l in ledger && m in ledger && ledger[l].lease.vm == ledger[m].lease.vm :: l == m
  }

  ghost predicate EverLeased(ledger: map<string, Entry>, uid: string) {
    exists l :: l in ledger && ledger[l].lease.vm == uid
  }

  /** A claim or a provisioning, which alone may make a MicroVM available. */
  predicate Working(call: Call) {
    call.Claiming? || call.Placed? || call.Created? || call.Hooking?
  }

  ghost predicate WorkerOk(call: Call, vm: VM, ledger: map<string, Entry>) {
    && vm.lease == ""
    && !EverLeased(ledger, vm.uid)
    && (call.Placed? <==> vm.uid == "")
    && match call
       case Claiming(_, _, key, _) => vm.pool == key && vm.phase in {PreLeaseHookRunning, Deleting}
       case _ => vm.phase in {Provisioning, CreateHookRunning, Deleting}
  }

  ghost predicate WorkersOk(calls: map<CallId, Call>, vms: map<nat, VM>, ledger: map<string, Entry>) {
    && (forall c | c in calls && Working(calls[c]) && calls[c].vm in vms ::
          WorkerOk(calls[c], vms[calls[c].vm], ledger))
    && (forall c, d | c in calls && d in calls && Working(calls[c]) && Working(calls[d]) && calls[c].vm == calls[d].vm ::
          c == d)
  }

  /** An available MicroVM has never been leased and nobody works on it; a leased one has been leased. */
  ghost predicate PhaseOk(v: nat, vm: VM, calls: map<CallId, Call>, ledger: map<string, Entry>) {
    && (vm.phase == Available ==>
          && vm.uid != "" && vm.lease == "" && !EverLeased(ledger, vm.uid)
          && forall c | c in calls && Working(calls[c]) :: calls[c].vm != v)
    && (vm.phase == Leased ==> EverLeased(ledger, vm.uid))
  }

  ghost predicate PhasesOk(vms: map<nat, VM>, calls: map<CallId, Call>, ledger: map<string, Entry>) {
    forall v | v in vms :: PhaseOk(v, vms[v], calls, ledger)
  }

  /** A claim can still reach the Pool record it began with, which is of the Pool it is for. */
  ghost predicate ClaimsOk(calls: map<CallId, Call>, pools: map<PoolKey, Pool>, gone: map<nat, Pool>) {
    forall c | c in calls && calls[c].Claiming? ::
      || (calls[c].key in pools && pools[calls[c].key].rec == calls[c].rec)
      || (calls[c].rec in gone && gone[calls[c].rec].key == calls[c].key)
  }

  /** A deletion that a ReleaseVM waits for is of the MicroVM of its Lease. */
  ghost predicate ReleaseOk(call: Call, ledger: map<string, Entry>, byUid: map<string, nat>) {
    (call.DeleteWanted? || call.DeleteOnHost?) && call.release != "" ==>
      && call.release in ledger
      && var entry := ledger[call.release];
         entry.cause.None? ==> entry.lease.vm in byUid && byUid[entry.lease.vm] == call.vm
  }

  ghost predicate ReleasesOk(calls: map<CallId, Call>, ledger: map<string, Entry>, byUid: map<string, nat>) {
    forall c | c in calls :: ReleaseOk(calls[c], ledger, byUid)
  }

  /** Only a client's call has an answer, and only once it has ended. */
  ghost predicate CallsOk(calls: map<CallId, Call>, answers: map<CallId, Reply>) {
    && (forall c | c in calls :: c !in answers && (calls[c].Claiming? ==> c.Rpc?))
    && (forall c | c in answers :: c.Rpc?)
  }

  ghost predicate HostsOk(hosts: map<string, Host>, pools: map<PoolKey, Pool>, vms: map<nat, VM>) {
    && (forall k | k in pools :: HostsHeld(hosts, pools[k].spec))
    && (forall v | v in vms :: vms[v].host in hosts)
  }

  ghost predicate AnswersOk(answers: map<CallId, Reply>, ledger: map<string, Entry>, leases: map<string, Lease>) {
    forall c | c in answers ::
      match answers[c]
      case Claimed(key, request, Granted(l, uid, _)) =>
        l in ledger && ledger[l].lease.vm == uid && ledger[l].lease.pool == key && ledger[l].lease.request == request
      case Claimed(_, _, _) => true
      case Released(l, answer) => (answer == Done || answer == NotFound ==> l !in leases)
  }

  /** A sweep takes a Lease only once its expiry has passed. */
  ghost predicate SweptOk(ledger: map<string, Entry>, now: Time) {
    forall l | l in ledger && ledger[l].cause == Some(Swept) :: ledger[l].lease.expiresAt <= now
  }

  /** How many events the Pool record `rec` has numbered. */
  ghost function Tally(log: seq<Event>, rec: nat): nat {
    if log == [] then 0 else Tally(log[..|log| - 1], rec) + (if log[|log| - 1].rec == rec then 1 else 0)
  }

  /** The events of a Pool record are of its key. */
  ghost predicate LogKeys(log: seq<Event>, pools: map<PoolKey, Pool>) {
    && (forall i, j | 0 <= i < |log| && 0 <= j < |log| && log[i].rec == log[j].rec :: log[i].key == log[j].key)
    && (forall i, k | 0 <= i < |log| && k in pools && log[i].rec == pools[k].rec :: log[i].key == k)
  }

  /** Each Pool numbers its own events from one, without a gap. */
  ghost predicate LogOk(log: seq<Event>, pools: map<PoolKey, Pool>, nextRec: nat) {
    && LogKeys(log, pools)
    && (forall i | 0 <= i < |log| :: log[i].id == Tally(log[..i], log[i].rec) + 1 && log[i].rec < nextRec)
    && (forall k | k in pools :: pools[k].nextEvent == Tally(log, pools[k].rec))
  }

  ghost predicate Inv(s: State) {
    && PoolsOk(s.pools, s.gone, s.nextRec)
    && IdsOk(s.vms, s.nextVM, s.calls, s.nextTask)
    && UidsOk(s.vms, s.byUid, s.uids)
    && LeasesOk(s.leases, s.vms, s.byUid, s.pools)
    && LedgerOk(s.ledger, s.leases, s.uids)
    && WorkersOk(s.calls, s.vms, s.ledger)
    && PhasesOk(s.vms, s.calls, s.ledger)
    && ClaimsOk(s.calls, s.pools, s.gone)
    && ReleasesOk(s.calls, s.ledger, s.byUid)
    && CallsOk(s.calls, s.answers)
    && RequestsOk(s.leases)
    && OnceOk(s.ledger)
    && HostsOk(s.hosts, s.pools, s.vms)
    && AnswersOk(s.answers, s.ledger, s.leases)
    && SweptOk(s.ledger, s.now)
    && LogOk(s.log, s.pools, s.nextRec)
  }

  lemma InitInv(placement: Placement)
    ensures Inv(Init(placement))
  {
  }
}
