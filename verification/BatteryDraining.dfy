/** The deletion of a Pool, one MicroVM and one Lease at a time. */
module BatteryDraining {
  import opened BatteryTypes
  import opened BatterySections
  import opened BatteryInvariant
  import opened BatteryLinks

  function MarkFirst(vms: map<nat, VM>, order: seq<nat>, now: Time): map<nat, VM> {
    map v | v in vms :: if v in order then Marked(vms[v], now) else vms[v]
  }

  function EndLeases(ledger: map<string, Entry>, leases: map<string, Lease>, ended: set<string>): map<string, Entry> {
    map l | l in ledger :: if l in leases && l in ended then Entry(leases[l], Some(PoolGone)) else ledger[l]
  }

  function Trimmed(pools: map<PoolKey, Pool>, key: PoolKey, ended: set<string>): map<PoolKey, Pool> {
    if key in pools then pools[key := pools[key].(warned := pools[key].warned - ended)] else pools
  }

  /** The state with other MicroVMs and without some Leases. */
  function Trim(s: State, key: PoolKey, vms: map<nat, VM>, ended: set<string>): State {
    s.(pools := Trimmed(s.pools, key, ended),
       vms := vms,
       leases := s.leases - ended,
       ledger := EndLeases(s.ledger, s.leases, ended))
  }

  lemma NumberTrimmed(pools: map<PoolKey, Pool>, key: PoolKey, ended: set<string>)
    ensures Numbering(Trimmed(pools, key, ended), key) == Trimmed(Numbering(pools, key), key, ended)
  {
  }

  /** An event may be appended before or after. */
  lemma EmitTrim(s: State, key: PoolKey, vms: map<nat, VM>, ended: set<string>, uid: string, typ: EventType)
    ensures Emit(Trim(s, key, vms, ended), key, uid, typ) == Trim(Emit(s, key, uid, typ), key, vms, ended)
  {
    hide EndLeases, Numbering;
    NumberTrimmed(s.pools, key, ended);
  }

  /** The state once the MicroVMs of `order` are marked and the Leases of `ended` are dropped. */
  function Draining(s: State, key: PoolKey, order: seq<nat>, ended: set<string>): State {
    Trim(EmitDeleted(s, key, order), key, MarkFirst(s.vms, order, s.now), ended)
  }

  lemma DrainStart(s: State, key: PoolKey)
    ensures Draining(s, key, [], {}) == s
  {
    assert MarkFirst(s.vms, [], s.now) == s.vms;
    assert EndLeases(s.ledger, s.leases, {}) == s.ledger;
    assert s.leases - {} == s.leases;
    if key in s.pools {
      assert s.pools[key].warned - {} == s.pools[key].warned;
      assert s.pools[key := s.pools[key]] == s.pools;
    }
  }

  /** Dropping one more Lease of the Pool. */
  lemma DrainDrop(s: State, key: PoolKey, order: seq<nat>, ended: set<string>, l: string)
    requires l in s.leases && l !in ended && s.leases[l].pool == key && l in s.ledger
    ensures DropLease(Draining(s, key, order, ended), l, PoolGone) == Draining(s, key, order, ended + {l})
  {
    hide EmitDeleted, MarkFirst;
    var t := EmitDeleted(s, key, order);
    TrimNext(t.pools, key, ended, l);
    var u := Draining(s, key, order, ended);
    assert u.leases - {l} == s.leases - (ended + {l});
    assert u.ledger[l := Entry(s.leases[l], Some(PoolGone))] == EndLeases(s.ledger, s.leases, ended + {l});
  }

  lemma TrimNext(pools: map<PoolKey, Pool>, key: PoolKey, ended: set<string>, l: string)
    ensures Unwarned(Trimmed(pools, key, ended), key, l) == Trimmed(pools, key, ended + {l})
  {
    if key in pools {
      assert (pools[key].warned - ended) - {l} == pools[key].warned - (ended + {l});
    }
  }

  /** One MicroVM is marked, and its deletion recorded if its Host has named it. */
  function DrainOne(s: State, key: PoolKey, v: nat): State
    requires v in s.vms
  {
    var t := SetVm(s, v, Marked(s.vms[v], s.now));
    if s.vms[v].uid != "" then Emit(t, key, s.vms[v].uid, VmDeletedOnPoolDelete) else t
  }

  lemma MarkNext(vms: map<nat, VM>, order: seq<nat>, now: Time, v: nat)
    requires v in vms && v !in order
    ensures v in MarkFirst(vms, order, now) && MarkFirst(vms, order, now)[v] == vms[v]
    ensures MarkFirst(vms, order, now)[v := Marked(vms[v], now)] == MarkFirst(vms, order + [v], now)
  {
  }

  lemma DrainQuiet(s: State, key: PoolKey, order: seq<nat>, ended: set<string>, v: nat)
    requires v in s.vms && v !in order && s.vms[v].uid == ""
    ensures SetVm(Draining(s, key, order, ended), v, Marked(s.vms[v], s.now)) == Draining(s, key, order + [v], ended)
  {
    hide MarkFirst, EndLeases, EmitDeleted, Marked;
    EmitNext(s, key, order, v);
    MarkNext(s.vms, order, s.now, v);
  }

  lemma EmitNext(s: State, key: PoolKey, order: seq<nat>, v: nat)
    requires v in s.vms
    ensures EmitDeleted(s, key, order + [v]) ==
            if s.vms[v].uid != "" then Emit(EmitDeleted(s, key, order), key, s.vms[v].uid, VmDeletedOnPoolDelete)
            else EmitDeleted(s, key, order)
  {
    hide Emit;
    assert (order + [v])[..|order|] == order;
  }

  lemma DrainNamed(s: State, key: PoolKey, order: seq<nat>, ended: set<string>, v: nat)
    requires v in s.vms && v !in order && s.vms[v].uid != ""
    ensures Emit(SetVm(Draining(s, key, order, ended), v, Marked(s.vms[v], s.now)), key, s.vms[v].uid, VmDeletedOnPoolDelete) ==
            Draining(s, key, order + [v], ended)
  {
    hide MarkFirst, EndLeases, EmitDeleted, Marked, Emit, Trimmed;
    EmitNext(s, key, order, v);
    MarkNext(s.vms, order, s.now, v);
    EmitTrim(EmitDeleted(s, key, order), key, MarkFirst(s.vms, order + [v], s.now), ended, s.vms[v].uid, VmDeletedOnPoolDelete);
  }

  lemma DrainFrame(s: State, key: PoolKey, order: seq<nat>, ended: set<string>)
    ensures var t := Draining(s, key, order, ended);
            t == s.(pools := t.pools, vms := MarkFirst(s.vms, order, s.now), leases := s.leases - ended, ledger := t.ledger, log := t.log)
    ensures Draining(s, key, order, ended).pools.Keys == s.pools.Keys
  {
    hide MarkFirst, EndLeases, EmitDeleted;
  }

  lemma DrainMark(s: State, key: PoolKey, order: seq<nat>, ended: set<string>, v: nat)
    requires v in s.vms && v !in order
    ensures var u := Draining(s, key, order, ended);
            v in u.vms && u.vms[v] == s.vms[v] && u.now == s.now && DrainOne(u, key, v) == Draining(s, key, order + [v], ended)
  {
    hide MarkFirst, Draining, Emit, Marked;
    MarkNext(s.vms, order, s.now, v);
    DrainFrame(s, key, order, ended);
    if s.vms[v].uid == "" {
      DrainQuiet(s, key, order, ended, v);
    } else {
      DrainNamed(s, key, order, ended, v);
    }
  }

  /** What is left to do once everything of the Pool is marked and dropped. */
  function DrainEnd(s: State, key: PoolKey, order: seq<nat>): State
    requires key in s.pools
  {
    SpawnAll(s.(pools := s.pools - {key}, gone := s.gone[s.pools[key].rec := s.pools[key]]), PoolDeletions(order))
  }

  lemma DrainDone(s: State, key: PoolKey, order: seq<nat>)
    requires key in s.pools && InOrder(order, PoolVMs(s.vms, key))
    ensures DrainEnd(Draining(s, key, order, LeasesOf(s.leases, key)), key, order) == DeletePoolS(s, key, order)
  {
    hide EmitDeleted, SpawnAll, PoolDeletions;
    var t := EmitDeleted(s, key, order);
    var u := Draining(s, key, order, LeasesOf(s.leases, key));
    assert u.pools - {key} == t.pools - {key};
    assert u.vms == MarkAll(s.vms, key, s.now) by {
      assert forall v | v in s.vms :: v in order <==> v in PoolVMs(s.vms, key);
    }
    assert u.leases == LeasesWithout(s.leases, key);
    assert u.ledger == LedgerWithout(s.ledger, s.leases, key);
  }

  /** A held Lease that a MicroVM carries is of the MicroVM's Pool. */
  lemma CarriedLease(s: State, v: nat)
    requires Inv(s) && Linked(s.vms, s.ledger) && v in s.vms && s.vms[v].lease in s.leases
    ensures s.leases[s.vms[v].lease].pool == s.vms[v].pool
  {
    hide PoolsOk, IdsOk, UidsOk, WorkersOk, PhasesOk, ClaimsOk, ReleasesOk, CallsOk, RequestsOk, OnceOk, HostsOk, AnswersOk, SweptOk, LogOk, Backed;
  }
}
