/** The data of the pool manager: Pools, MicroVMs, Leases, Hosts, and the calls in flight. */
module BatteryTypes {

  datatype Option<+T> = None | Some(value: T)

  /** Times and durations, in nanoseconds. */
  type Time = int

  datatype PoolKey = PoolKey(name: string, namespace: string)

  datatype Phase =
    | Provisioning
    | CreateHookRunning
    | Available
    | PreLeaseHookRunning
    | Leased
    | Quarantined
    | Deleting

  datatype Strategy = ImmediateOnLease | MinSizeThreshold | ReplaceOnDelete

  datatype Policy = DeleteAndReplace | Quarantine

  datatype Placement = LeastVMs | RoundRobin

  datatype EventType =
    | VmProvisioned
    | VmAvailable
    | VmClaimed
    | VmReleased
    | VmExpiringSoon
    | VmHookFailed
    | VmDeletedOnRelease
    | VmDeletedDueToExpiry
    | VmDeletedOnPoolDelete
    | PoolReplenishing
    | PoolSizeBelowTarget

  datatype Spec = Spec(
    size: int,
    strategy: Strategy,
    minSize: Option<int>,
    hosts: seq<string>,
    policy: Policy,
    interval: Time,
    threshold: Time)

  /**
   * One declared Pool. `rec` tells it from an earlier Pool of the same key, whose record
   * a claim in flight may still hold.
   */
  datatype Pool = Pool(
    key: PoolKey,
    rec: nat,
    spec: Spec,
    nextEvent: nat,
    rr: nat,
    unfilled: bool,
    warned: map<string, Time>)

  /** One tracked MicroVM; `uid` and `lease` are empty while there is none. */
  datatype VM = VM(
    uid: string,
    pool: PoolKey,
    host: string,
    phase: Phase,
    lease: string,
    createPolicy: Policy,
    deleteEvent: Option<EventType>,
    inFlight: bool,
    released: bool,
    updated: Time)

  datatype Lease = Lease(
    vm: string,
    pool: PoolKey,
    claimedAt: Time,
    heartbeatAt: Time,
    expiresAt: Time,
    request: string)

  datatype Host = Host(address: string, cordoned: bool, connected: bool)

  /** An event, with the incarnation of the Pool that numbered it. */
  datatype Event = Event(key: PoolKey, rec: nat, id: nat, vm: string, typ: EventType)

  /** Why a Lease ended. */
  datatype Cause = Swept | VmGone | PoolGone

  /** The history of one Lease: its last record, and why it ended if it has. */
  datatype Entry = Entry(lease: Lease, cause: Option<Cause>)

  /** A call from a client, or a task the manager spawned itself. */
  datatype CallId = Rpc(n: nat) | Task(n: nat)

  /** Where a call stands between two critical sections. */
  datatype Call =
    | Claiming(vm: nat, rec: nat, key: PoolKey, request: string)
    | Placed(vm: nat)
    | Created(vm: nat)
    | Hooking(vm: nat)
    | DeleteWanted(vm: nat, event: Option<EventType>, release: string)
    | DeleteOnHost(vm: nat, release: string)

  datatype Answer =
    | Granted(lease: string, vm: string, host: string)
    | Done
    | NotFound
    | Exhausted
    | Aborted
    | InvalidArgument
    | Internal
    | Unavailable

  /** An answer with what was asked: a ClaimVM on a Pool with a request id, or a ReleaseVM of a Lease. */
  datatype Reply =
    | Claimed(key: PoolKey, request: string, answer: Answer)
    | Released(lease: string, answer: Answer)

  /**
   * The manager's memory under its lock, together with the calls in flight and
   * three histories: the answers given, every Lease ever granted, and the event log.
   * `gone` keeps the records of deleted Pools.
   */
  datatype State = State(
    now: Time,
    running: bool,
    placement: Placement,
    pools: map<PoolKey, Pool>,
    gone: map<nat, Pool>,
    nextRec: nat,
    vms: map<nat, VM>,
    byUid: map<string, nat>,
    nextVM: nat,
    leases: map<string, Lease>,
    hosts: map<string, Host>,
    calls: map<CallId, Call>,
    nextTask: nat,
    answers: map<CallId, Reply>,
    ledger: map<string, Entry>,
    uids: set<string>,
    log: seq<Event>)

  const MAX_REQUEST_ID := 255

  function Init(placement: Placement): State {
    State(0, false, placement, map[], map[], 0, map[], map[], 0, map[], map[], map[], 0, map[], map[], {}, [])
  }
}
