/** A MicroVMClaim as the Claim Controller reads and writes it. */
module Claim {
  import opened BatteryTypes

  datatype ClaimPhase = Unset | Pending | Bound | Expired

  datatype Status = Status(
    phase: ClaimPhase,
    lease: string,
    vm: string,
    host: string,
    expires: Option<Time>,
    observed: Option<Time>)

  /** `release` is whether the claim has the release finalizer, `others` are its other finalizers. */
  datatype Claim = Claim(
    uid: string,
    pool: PoolKey,
    holder: string,
    renew: Option<Time>,
    release: bool,
    others: set<string>,
    deleting: bool,
    status: Status)

  const EMPTY := Status(Unset, "", "", "", None, None)

  const SECOND: Time := 1_000_000_000

  /** The API server keeps times in whole seconds. */
  function Seconds(t: Time): (r: Time)
    ensures r <= t < r + SECOND
  {
    t - t % SECOND
  }

  predicate HoldsLease(c: Claim) {
    c.status.phase == Bound && c.status.lease != "" && !c.deleting
  }

  predicate PendingRenewal(c: Claim) {
    c.renew != c.status.observed
  }

  function Rank(phase: ClaimPhase): nat {
    match phase
    case Unset => 0
    case Pending => 1
    case Bound => 2
    case Expired => 3
  }

  /** `d` is a later version of the claim `c`: what is recorded of a Lease stays, and the phase only moves forward. */
  predicate Later(c: Claim, d: Claim) {
    && d.uid == c.uid && d.pool == c.pool && d.holder == c.holder
    && (c.deleting ==> d.deleting)
    && Rank(c.status.phase) <= Rank(d.status.phase)
    && (c.status.lease != "" ==> d.status.lease == c.status.lease && d.status.vm == c.status.vm && d.status.host == c.status.host)
  }

  function WithPhase(c: Claim, phase: ClaimPhase): Claim {
    c.(status := c.status.(phase := phase))
  }

  function WithExpiry(c: Claim, expires: Time): Claim {
    c.(status := c.status.(expires := Some(expires)))
  }

  /** The status of a claim that battery has leased a MicroVM for; the answer has no expiry. */
  function BoundTo(c: Claim, lease: string, vm: string, host: string): Claim {
    c.(status := Status(Bound, lease, vm, host, None, c.renew))
  }

  function Renewal(c: Claim, expires: Time): Claim {
    c.(status := c.status.(expires := Some(expires), observed := c.renew))
  }

  /** A field of a merge patch: written only if it was changed. */
  function Patched<T(==)>(stored: T, base: T, desired: T): T {
    if desired == base then stored else desired
  }

  function Rounded(expires: Option<Time>): Option<Time> {
    match expires
    case Some(t) => Some(Seconds(t))
    case None => None
  }

  /** The merge patch of the fields that differ between `base` and `desired`, as the API server applies it. */
  function MergeStatus(stored: Status, base: Status, desired: Status): Status {
    Status(
      Patched(stored.phase, base.phase, desired.phase),
      Patched(stored.lease, base.lease, desired.lease),
      Patched(stored.vm, base.vm, desired.vm),
      Patched(stored.host, base.host, desired.host),
      Patched(stored.expires, base.expires, Rounded(desired.expires)),
      Patched(stored.observed, base.observed, desired.observed))
  }
}

/** The Exec Agent's decision whether a caller may use a MicroVM. */
module ExecAgent {
  import opened BatteryTypes
  import opened Claim

  const EXEC_SECRET_SUFFIX := "-exec"

  datatype Secret = Secret(namespace: string, name: string, uid: string)

  datatype Caller = Caller(user: string, secret: Option<Secret>)

  /** What the Exec Agent reads of a claim; a fact the claim does not record is empty. */
  datatype Facts = Facts(
    namespace: string,
    name: string,
    holder: string,
    phase: ClaimPhase,
    vm: string,
    host: string,
    expires: Option<Time>)

  function FactsOf(namespace: string, name: string, c: Claim): Facts {
    Facts(namespace, name, c.holder, c.status.phase, c.status.vm, c.status.host, c.status.expires)
  }

  function ServiceAccountUser(namespace: string, name: string): string {
    "system:serviceaccount:" + namespace + ":" + name
  }

  predicate Authorize(c: Facts, caller: Caller, vm: string, host: string, now: Time) {
    && c.holder != "" && caller.user == ServiceAccountUser(c.namespace, c.holder)
    && caller.secret.Some?
    && caller.secret.value.namespace == c.namespace && caller.secret.value.name == c.name + EXEC_SECRET_SUFFIX
    && caller.secret.value.uid != ""
    && c.phase == Bound
    && c.expires.Some? && now < c.expires.value
    && c.vm != "" && c.vm == vm
    && c.host != "" && c.host == host
  }

  datatype Verdict = Allowed | Refused | LookupFailed

  /** What the API server answers when a claim is read: it may fail, or have no such claim. */
  datatype Lookup = Failed | Absent | Present(facts: Facts)

  /** The name of the claim whose exec Secret has the name. */
  function ClaimName(secret: string): Option<string> {
    var n := |secret| - |EXEC_SECRET_SUFFIX|;
    if n > 0 && secret[n..] == EXEC_SECRET_SUFFIX then Some(secret[..n]) else None
  }

  lemma ClaimNameOf(name: string)
    requires name != ""
    ensures ClaimName(name + EXEC_SECRET_SUFFIX) == Some(name)
  {
    var secret := name + EXEC_SECRET_SUFFIX;
    assert secret[|name|..] == EXEC_SECRET_SUFFIX && secret[..|name|] == name;
  }

  /** Reads the one claim that the token names, and decides on it alone. */
  function AuthorizeClaim(read: (string, string) -> Lookup, caller: Caller, vm: string, host: string, now: Time): Verdict {
    if vm == "" || caller.secret.None? then Refused
    else
      var name := ClaimName(caller.secret.value.name);
      if name.None? then Refused
      else match read(caller.secret.value.namespace, name.value)
        case Failed => LookupFailed
        case Absent => Refused
        case Present(c) => if Authorize(c, caller, vm, host, now) then Allowed else Refused
  }

  /** The API server answers with the claim that was asked for, and no claim has an empty name. */
  ghost predicate Named(read: (string, string) -> Lookup) {
    forall namespace, name :: read(namespace, name).Present? ==>
      name != "" && read(namespace, name).facts.namespace == namespace && read(namespace, name).facts.name == name
  }

  /** One read is enough: the caller is allowed exactly if some claim of any name allows it. */
  lemma OneReadDecides(read: (string, string) -> Lookup, caller: Caller, vm: string, host: string, now: Time)
    requires Named(read)
    ensures AuthorizeClaim(read, caller, vm, host, now) == Allowed <==>
            exists namespace, name ::
              read(namespace, name).Present? && Authorize(read(namespace, name).facts, caller, vm, host, now)
  {
    forall namespace, name | read(namespace, name).Present? && Authorize(read(namespace, name).facts, caller, vm, host, now)
      ensures AuthorizeClaim(read, caller, vm, host, now) == Allowed
    {
      ClaimNameOf(name);
    }
  }
}
