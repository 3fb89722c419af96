/** The Claim Controller's objects: the scope of a reconcile, what recovery found, and the MicroVMs reported deleted. */
module ClaimController {
  import opened BatteryTypes
  import opened Claim
  import opened World

  // ----- Battery's lists of Leases -----

  datatype LeaseRecord = LeaseRecord(id: string, expires: Time)

  /** A list of held Leases, of one Pool or of all, each once and in any order. */
  ghost predicate Lists(listed: seq<LeaseRecord>, leases: map<string, Lease>, pool: Option<PoolKey>) {
    && (forall r | r in listed ::
          r.id in leases && leases[r.id].expiresAt == r.expires && (pool.Some? ==> leases[r.id].pool == pool.value))
    && (forall l | l in leases && (pool.Some? ==> leases[l].pool == pool.value) :: LeaseRecord(l, leases[l].expiresAt) in listed)
  }

  /** The expiry that a list gives for a Lease. */
  function Listing(listed: seq<LeaseRecord>, id: string): Option<Time> {
    if listed == [] then None
    else if listed[0].id == id then Some(listed[0].expires)
    else Listing(listed[1..], id)
  }

  lemma {:induction false} ListingFinds(listed: seq<LeaseRecord>, id: string)
    ensures match Listing(listed, id)
            case Some(t) => LeaseRecord(id, t) in listed
            case None => forall r | r in listed :: r.id != id
    decreases |listed|
  {
    if listed != [] && listed[0].id != id {
      ListingFinds(listed[1..], id);
      assert listed == [listed[0]] + listed[1..];
    }
  }

  /** What a list of one Pool's Leases says of a Lease is what battery holds of it in that Pool. */
  lemma ListedInPool(listed: seq<LeaseRecord>, leases: map<string, Lease>, pool: PoolKey, id: string)
    requires Lists(listed, leases, Some(pool))
    ensures Listing(listed, id) == ExpiryInPool(leases, id, pool)
  {
    ListingFinds(listed, id);
  }

  method Search(listed: seq<LeaseRecord>, id: string) returns (expires: Option<Time>)
    ensures expires == Listing(listed, id)
  {
    var i := 0;
    while i < |listed|
      invariant 0 <= i <= |listed| && Listing(listed, id) == Listing(listed[i..], id)
    {
      if listed[i].id == id {
        return Some(listed[i].expires);
      }
      assert listed[i..][1..] == listed[i + 1..];
      i := i + 1;
    }
    return None;
  }

  // ----- What recovery found -----

  class RecoveredLeases {
    var leases: map<string, Option<Time>>

    constructor ()
      ensures leases == map[]
    {
      leases := map[];
    }

    /**
     * Keeps what the list says of the Leases that claims had recorded before it was made, and of no other: a Lease it
     * leaves out is noted as not held.
     */
    method Record(recorded: seq<string>, listed: seq<LeaseRecord>, ghost held: map<string, Lease>)
      requires Lists(listed, held, None)
      modifies this
      ensures leases == map l | l in recorded :: ExpiryIn(held, l)
    {
      var byId: map<string, Time> := map[];
      var i := 0;
      while i < |listed|
        invariant 0 <= i <= |listed|
        invariant forall l | l in byId :: l in held && byId[l] == held[l].expiresAt
        invariant forall j | 0 <= j < i :: listed[j].id in byId
      {
        assert listed[i] in listed;
        byId := byId[listed[i].id := listed[i].expires];
        i := i + 1;
      }
      forall l | l in held ensures l in byId {
        var j :| 0 <= j < |listed| && listed[j] == LeaseRecord(l, held[l].expiresAt);
        assert listed[j].id in byId;
      }
      var found: map<string, Option<Time>> := map[];
      i := 0;
      while i < |recorded|
        invariant 0 <= i <= |recorded| && found == map l | l in recorded[..i] :: ExpiryIn(held, l)
      {
        assert recorded[..i + 1] == recorded[..i] + [recorded[i]];
        found := found[recorded[i] := if recorded[i] in byId then Some(byId[recorded[i]]) else None];
        i := i + 1;
      }
      assert recorded[..i] == recorded;
      leases := found;
    }

    /** A record is handed out once; that battery no longer holds a Lease is kept. */
    method Lookup(id: string) returns (known: bool, expires: Option<Time>)
      modifies this
      ensures known <==> id in old(leases)
      ensures expires == if known then old(leases)[id] else None
      ensures leases == if expires.Some? then old(leases) - {id} else old(leases)
    {
      known := id in leases;
      expires := if known then leases[id] else None;
      if expires.Some? {
        leases := leases - {id};
      }
    }
  }

  /** The lease ids of the claims that hold a Lease. */
  function LeaseIds(claims: seq<Claim>): set<string> {
    set c | c in claims && HoldsLease(c) :: c.status.lease
  }

  /**
   * One recovery: the claims were listed before the Leases. What it keeps is what battery held of every Lease that a
   * claim recorded, and `bound` are the claims to reconcile again.
   */
  method Recover(claims: seq<Claim>, listed: seq<LeaseRecord>, store: RecoveredLeases, ghost held: map<string, Lease>)
    returns (bound: seq<Claim>)
    requires Lists(listed, held, None)
    modifies store
    ensures store.leases == map l | l in LeaseIds(claims) :: ExpiryIn(held, l)
    ensures forall c :: c in bound <==> c in claims && HoldsLease(c)
  {
    var recorded: seq<string> := [];
    bound := [];
    var i := 0;
    while i < |claims|
      invariant 0 <= i <= |claims|
      invariant forall c :: c in bound <==> c in claims[..i] && HoldsLease(c)
      invariant forall l :: l in recorded <==> l in LeaseIds(claims[..i])
    {
      assert claims[..i + 1] == claims[..i] + [claims[i]];
      if HoldsLease(claims[i]) {
        bound := bound + [claims[i]];
        recorded := recorded + [claims[i].status.lease];
        assert LeaseIds(claims[..i + 1]) == LeaseIds(claims[..i]) + {claims[i].status.lease};
      } else {
        assert LeaseIds(claims[..i + 1]) == LeaseIds(claims[..i]);
      }
      i := i + 1;
    }
    assert claims[..i] == claims;
    store.Record(recorded, listed, held);
  }

  // ----- MicroVMs reported deleted -----

  const HOUR: Time := 3600 * SECOND

  class DeletedVMs {
    const retention: Time
    var seen: map<string, Time>

    constructor (kept: Time)
      ensures retention == (if kept > 0 then kept else HOUR) && seen == map[]
    {
      retention := if kept > 0 then kept else HOUR;
      seen := map[];
    }

    /** Notes the MicroVM, and forgets those that were noted longer ago than the retention. */
    method Add(uid: string, now: Time)
      modifies this
      ensures seen == (map u | u in old(seen) && now - old(seen)[u] <= retention :: old(seen)[u])[uid := now]
    {
      var left := seen.Keys;
      while left != {}
        invariant left <= old(seen).Keys && seen.Keys <= old(seen).Keys && forall u | u in seen :: seen[u] == old(seen)[u]
        invariant forall u | u in old(seen) :: u in seen <==> u in left || now - old(seen)[u] <= retention
        decreases |left|
      {
        var u :| u in left;
        left := left - {u};
        if now - seen[u] > retention {
          seen := seen - {u};
        }
      }
      seen := seen[uid := now];
    }

    predicate Has(uid: string)
      reads this
    {
      uid in seen
    }
  }

  // ----- The API server's copy of a claim -----

  datatype Refusal = Fine | Conflict | Missing

  /** The versions of one claim from the one that the cache shows to the stored one. */
  class ClaimStore {
    var view: seq<Version>

    constructor (versions: seq<Version>)
      ensures view == versions
    {
      view := versions;
    }

    /** The metadata patch, which goes through only from the stored version. */
    method PatchMetadata(rv: nat, release: bool) returns (refusal: Refusal)
      modifies this
      ensures refusal == (if Stored(Local(old(view), None)).None? then Missing
                          else if rv != StoredRv(Local(old(view), None)) then Conflict else Fine)
      ensures refusal != Fine ==> view == old(view)
      ensures forall r: Reconcile | r.rv == rv && r.obj.release == release :: view == PatchL(Local(old(view), None), r).view
    {
      if view == [] || view[|view| - 1].obj.None? {
        return Missing;
      }
      var last := view[|view| - 1];
      if last.rv != rv {
        return Conflict;
      }
      view := view + [Version(rv + 1, Settle(last.obj.value.(release := release)))];
      return Fine;
    }

    /** The status patch, of the fields that differ from the base. */
    method PatchStatus(base: Status, desired: Status) returns (refusal: Refusal)
      modifies this
      ensures refusal == (if Stored(Local(old(view), None)).None? then Missing else Fine)
      ensures refusal != Fine ==> view == old(view)
      ensures forall r: Reconcile | r.orig.status == base && r.obj.status == desired ::
                view == WriteL(Local(old(view), None), r).view
    {
      if view == [] || view[|view| - 1].obj.None? {
        return Missing;
      }
      var last := view[|view| - 1];
      var status := MergeStatus(last.obj.value.status, base, desired);
      if status != last.obj.value.status {
        view := view + [Version(last.rv + 1, Some(last.obj.value.(status := status)))];
      }
      return Fine;
    }
  }

  // ----- The scope of one reconcile -----

  /** What a reconcile does after a step: it ends without a write, or goes on to a point. */
  datatype Flow = Ends | To(pc: Pc)

  class Scope {
    const rv: nat
    const orig: Claim
    var obj: Claim

    constructor (version: nat, c: Claim)
      ensures rv == version && orig == c && obj == c
    {
      rv, orig, obj := version, c, c;
    }

    /** The reconcile of this scope. */
    ghost function Self(pc: Pc): Reconcile
      reads this
    {
      Reconcile(rv, orig, obj, pc)
    }

    /** The name after the step. */
    ghost function After(x: Local, flow: Flow): Local
      reads this
    {
      match flow
      case Ends => Over(x)
      case To(pc) => x.(rec := Some(Self(pc)))
    }

    /** The steps in their order up to the first that waits for an answer or a write. */
    method Begin(ghost x: Local) returns (flow: Flow)
      requires x.view != [] && x.view[0] == Version(rv, Some(orig)) && x.rec.None? && obj == orig
      modifies this
      ensures After(x, flow) == BeginL(x)
    {
      if obj.deleting {
        if !obj.release {
          return Ends;
        }
        if obj.status.lease == "" {
          obj := obj.(release := false);
          return To(Patching);
        }
        return To(Releasing);
      }
      if !obj.release {
        obj := obj.(release := true);
        return To(Patching);
      }
      if obj.status.lease == "" {
        return To(Reading);
      }
      if HoldsLease(obj) {
        return To(Watching);
      }
      return Ends;
    }

    method Release(answer: Answer, ghost x: Local) returns (flow: Flow)
      modifies this
      ensures forall pc :: After(x, flow) == ReleasedL(x, old(Self(pc)), answer)
    {
      if answer == Done || answer == NotFound {
        obj := obj.(release := false);
        return To(Patching);
      }
      return Ends;
    }

    /** Bind on the copy it read from the API server itself; it then asks battery under the uid of that copy. */
    method Bind(current: Option<Claim>, poolDeleting: bool, ghost x: Local) returns (flow: Flow)
      requires current == Stored(x)
      modifies this
      ensures forall pc :: After(x, flow) == ReadL(x, old(Self(pc)), poolDeleting)
    {
      if current.None? || current.value.status.lease != "" || current.value.deleting || !current.value.release {
        return Ends;
      }
      if poolDeleting {
        Pending();
        return To(Writing);
      }
      return To(Asking(current.value.uid));
    }

    method Pending()
      modifies this
      ensures obj == WithPhase(old(obj), ClaimPhase.Pending)
    {
      obj := obj.(status := obj.status.(phase := ClaimPhase.Pending));
    }

    method Expire()
      modifies this
      ensures obj == WithPhase(old(obj), Expired)
    {
      obj := obj.(status := obj.status.(phase := Expired));
    }

    /** Bind once battery has answered: one status records the Lease, or says why there is none. */
    method Claimed(answer: Answer, ghost x: Local) returns (flow: Flow)
      modifies this
      ensures forall pc :: After(x, flow) == AnsweredL(x, old(Self(pc)), answer)
    {
      match answer
      case Granted(l, vm, host) =>
        var relayed := obj.renew;
        var status := obj.status.(lease := l, vm := vm, host := host);
        obj := obj.(status := status.(expires := None, observed := relayed, phase := Bound));
        return To(Writing);
      case NotFound =>
        Pending();
        return To(Writing);
      case Exhausted =>
        Pending();
        return To(Writing);
      case Aborted =>
        Pending();
        return To(Writing);
      case _ =>
        return Ends;
    }

    method ExpireDeleted(deleted: DeletedVMs, ghost x: Local) returns (flow: Flow)
      modifies this
      ensures forall pc :: After(x, flow) == WatchL(x, old(Self(pc)), deleted.seen.Keys)
    {
      if deleted.Has(obj.status.vm) {
        Expire();
        return To(Writing);
      }
      return To(Recovering);
    }

    /** Takes what recovery found, and with it the record. */
    method RecoverLease(store: RecoveredLeases, ghost x: Local) returns (flow: Flow)
      modifies this, store
      ensures forall pc :: After(x, flow) == LookUpL(x, old(Self(pc)), old(store.leases))
      ensures var l := old(obj).status.lease;
              store.leases == if l in old(store.leases) && old(store.leases)[l].Some? then old(store.leases) - {l} else old(store.leases)
    {
      var known, expires := store.Lookup(obj.status.lease);
      if known && expires.None? {
        Expire();
        return To(Writing);
      }
      if known && Before(obj.status.expires, expires.value) {
        obj := obj.(status := obj.status.(expires := expires));
      }
      return To(if PendingRenewal(obj) then Renewing else Checking);
    }

    /** Renew once battery has answered the Heartbeat; `None` is NOT_FOUND. */
    method Renew(answer: Option<Time>, ghost x: Local) returns (flow: Flow)
      modifies this
      ensures forall pc :: After(x, flow) == RenewedL(x, old(Self(pc)), answer)
    {
      if answer.None? {
        Expire();
        return To(Writing);
      }
      var relayed := obj.renew;
      obj := obj.(status := obj.status.(expires := answer, observed := relayed));
      return To(Checking);
    }

    method CheckExpiry(now: Time, ghost x: Local) returns (flow: Flow)
      ensures forall pc :: After(x, flow) == CheckL(x, Self(pc), now)
    {
      if obj.status.expires.Some? && obj.status.expires.value > now {
        return To(Writing);
      }
      return To(Pc.Listing(now));
    }

    /** CheckExpiry once battery has listed the Leases of the claim's Pool. */
    method CheckListed(now: Time, listed: seq<LeaseRecord>, ghost x: Local, ghost leases: map<string, Lease>) returns (flow: Flow)
      requires Lists(listed, leases, Some(obj.pool))
      modifies this
      ensures forall pc ::
                After(x, flow) == ListedL(x, old(Self(pc)), now, ExpiryInPool(leases, old(obj).status.lease, old(obj).pool))
    {
      var expires := Search(listed, obj.status.lease);
      ListedInPool(listed, leases, obj.pool, obj.status.lease);
      if expires.None? || expires.value <= now {
        Expire();
      } else {
        obj := obj.(status := obj.status.(expires := expires));
      }
      return To(Writing);
    }

    /**
     * Writes what the steps changed: the finalizer first, under the lock, and then the status. A patch that is refused writes
     * nothing.
     */
    method Patch(store: ClaimStore) returns (refusal: Refusal)
      modifies store
      ensures refusal != Fine ==> store.view == old(store.view)
      ensures refusal == Conflict <==>
                && obj.release != orig.release
                && Stored(Local(old(store.view), None)).Some? && StoredRv(Local(old(store.view), None)) != rv
      ensures store.view == PatchedView(old(store.view), Self(Writing))
      ensures obj.release == orig.release ==> forall pc :: store.view == WriteL(Local(old(store.view), None), Self(pc)).view
      ensures obj.release != orig.release && obj.status == orig.status && Consistent(old(store.view), rv, orig) ==>
                forall pc :: store.view == PatchL(Local(old(store.view), None), Self(pc)).view
    {
      refusal := Fine;
      var base := orig.status;
      if obj.release != orig.release {
        var last := obj.deleting && !obj.release && obj.others == {};
        refusal := store.PatchMetadata(rv, obj.release);
        assert Self(Patching).rv == rv;
        if refusal != Fine || last {
          if last && refusal == Missing {
            refusal := Fine;
          }
          return;
        }
        if store.view[|store.view| - 1].obj.None? {
          return;
        }
        base := store.view[|store.view| - 1].obj.value.status;
      }
      if base != obj.status.(expires := Rounded(obj.status.expires)) {
        refusal := store.PatchStatus(base, obj.status);
      }
    }
  }

  /**
   * What a reconcile leaves stored. A changed finalizer goes to the version that was read or nowhere; the status then goes to
   * what is stored by then, as a merge of the fields that differ from it or, with an unchanged finalizer, from the copy.
   */
  function PatchedView(view: seq<Version>, r: Reconcile): seq<Version> {
    var x := Local(view, None);
    if r.obj.release == r.orig.release then WriteL(x, r).view
    else
      var y := PatchL(x, r);
      var last := r.obj.deleting && !r.obj.release && r.obj.others == {};
      if y.view == view || last || Stored(y).None? then y.view
      else WriteL(y, r.(orig := Stored(y).value)).view
  }

  /** The copy was read from the API server, so the stored claim is the copy if its version is. */
  ghost predicate Consistent(view: seq<Version>, rv: nat, c: Claim) {
    && Rounded(c.status.expires) == c.status.expires
    && (StoredRv(Local(view, None)) == rv ==> Stored(Local(view, None)) == None || Stored(Local(view, None)) == Some(c))
  }
}
