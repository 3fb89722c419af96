/** How the Pool Controller notices a Pool that battery is not filling. */
module PoolStall {
  import opened BatteryTypes
  import opened BatterySections

  /** How long a Pool has to stay stalled with one shortfall. */
  const STALL_WAIT: Time := 60_000_000_000

  /** What the Pool Controller has seen of a Pool with a shortfall. */
  datatype Stall = Stall(shortfall: int, since: Time, notFilling: bool)

  datatype NotFilling = NotFilling(shortfall: int, since: Time)

  /** One look at a Pool with a shortfall. */
  datatype Sighting = Sighting(shortfall: int, stalled: bool, at: Time)

  function Shortfall(spec: Spec, available: int, leased: int): Option<int> {
    match spec.strategy
    case ImmediateOnLease => Some(spec.size - available)
    case ReplaceOnDelete => Some(spec.size - (available + leased))
    case MinSizeThreshold => None
  }

  /**
   * The shortfall less what is provisioning is what the tick starts: always for IMMEDIATE_ON_LEASE, and for
   * REPLACE_ON_DELETE exactly while no MicroVM is DELETING or there is nothing to start, because the tick also counts those.
   */
  lemma ShortfallIsDeficit(s: State, key: PoolKey)
    requires key in s.pools
    ensures var n := Shortfall(s.pools[key].spec, Count(s.vms, key, {Available}), Count(s.vms, key, LEASED));
            var provisioning := Count(s.vms, key, PROVISIONING);
            match s.pools[key].spec.strategy
            case ImmediateOnLease => n.Some? && Deficit(s, key) == Positive(n.value - provisioning)
            case ReplaceOnDelete =>
              n.Some? && (Deficit(s, key) == Positive(n.value - provisioning) <==>
                          Count(s.vms, key, {Deleting}) == 0 || n.value <= provisioning)
            case MinSizeThreshold => n.None?
  {
    hide Count;
  }

  // ----- What the sightings say -----

  /** The current unbroken run of sightings with one shortfall. */
  ghost function Unbroken(h: seq<Sighting>): seq<Sighting> {
    if |h| <= 1 then h
    else if h[|h| - 2].shortfall == h[|h| - 1].shortfall then Unbroken(h[..|h| - 1]) + [h[|h| - 1]]
    else [h[|h| - 1]]
  }

  /** The run is the end of the sightings. */
  lemma {:induction false} RunIsEnd(h: seq<Sighting>)
    ensures |Unbroken(h)| <= |h| && Unbroken(h) == h[|h| - |Unbroken(h)|..] && (h != [] ==> Unbroken(h) != [])
  {
    if |h| > 1 {
      RunIsEnd(h[..|h| - 1]);
    }
  }

  /** Two stalled sightings of the run lie at least the wait apart. */
  ghost predicate Stuck(r: seq<Sighting>) {
    exists i, j :: 0 <= i <= j < |r| && r[i].stalled && r[j].stalled && r[j].at - r[i].at >= STALL_WAIT
  }

  ghost predicate InTime(h: seq<Sighting>) {
    forall i, j | 0 <= i < j < |h| :: h[i].at <= h[j].at
  }

  ghost predicate First(r: seq<Sighting>, i: nat) {
    i < |r| && r[i].stalled && forall j | 0 <= j < i :: !r[j].stalled
  }

  /** What is remembered is what the run of sightings says. */
  ghost predicate Says(st: Option<Stall>, r: seq<Sighting>) {
    match st
    case None => forall i | 0 <= i < |r| :: !r[i].stalled
    case Some(s) =>
      && r != [] && s.shortfall == r[|r| - 1].shortfall
      && (exists i: nat :: First(r, i) && r[i].at == s.since)
      && (s.notFilling <==> Stuck(r))
  }

  ghost predicate Remembers(st: Option<Stall>, h: seq<Sighting>) {
    Says(st, Unbroken(h))
  }

  /** A sighting with another shortfall starts a new run. */
  lemma NewRun(h: seq<Sighting>, x: Sighting)
    ensures Unbroken(h + [x]) ==
            if h != [] && h[|h| - 1].shortfall == x.shortfall then Unbroken(h) + [x] else [x]
  {
    assert (h + [x])[..|h|] == h;
  }

  lemma Resumed(r: seq<Sighting>, x: Sighting, i: nat)
    requires InTime(r + [x]) && First(r, i)
    ensures First(r + [x], i) && (r + [x])[i] == r[i]
    ensures Stuck(r + [x]) <==> Stuck(r) || (x.stalled && x.at - r[i].at >= STALL_WAIT)
  {
    var q := r + [x];
    if Stuck(r) {
      var a, b :| 0 <= a <= b < |r| && r[a].stalled && r[b].stalled && r[b].at - r[a].at >= STALL_WAIT;
      assert q[a] == r[a] && q[b] == r[b];
    }
    if x.stalled && x.at - r[i].at >= STALL_WAIT {
      assert q[i] == r[i] && q[|r|] == x;
    }
    if Stuck(q) {
      var a, b :| 0 <= a <= b < |q| && q[a].stalled && q[b].stalled && q[b].at - q[a].at >= STALL_WAIT;
      if b == |r| {
        assert a < |r| ==> q[i].at <= q[a].at;
      } else {
        assert r[a] == q[a] && r[b] == q[b];
      }
    }
  }

  /** What is remembered after one more sighting. */
  function Noted(st: Option<Stall>, x: Sighting): Option<Stall> {
    if st.Some? && st.value.shortfall == x.shortfall then
      Some(st.value.(notFilling := st.value.notFilling || (x.stalled && x.at >= st.value.since + STALL_WAIT)))
    else if x.stalled then Some(Stall(x.shortfall, x.at, false))
    else None
  }

  lemma NotedResumes(st: Stall, r: seq<Sighting>, x: Sighting)
    requires Says(Some(st), r) && InTime(r + [x]) && st.shortfall == x.shortfall
    ensures Says(Noted(Some(st), x), r + [x])
  {
    var i: nat :| First(r, i) && r[i].at == st.since;
    hide Stuck;
    Resumed(r, x, i);
  }

  /** A sighting after none that was stalled. */
  lemma NotedStarts(r: seq<Sighting>, x: Sighting)
    requires forall i | 0 <= i < |r| :: !r[i].stalled
    ensures Says(Noted(None, x), r + [x])
  {
    if x.stalled {
      assert First(r + [x], |r|);
    }
  }

  lemma RunInTime(h: seq<Sighting>, x: Sighting)
    requires InTime(h + [x])
    ensures InTime(Unbroken(h) + [x])
  {
    RunIsEnd(h);
    var r := Unbroken(h);
    assert r + [x] == (h + [x])[|h| - |r|..];
  }

  /** The memory of one step refines the whole history. */
  lemma NotedRemembers(st: Option<Stall>, h: seq<Sighting>, x: Sighting)
    requires Remembers(st, h) && InTime(h + [x])
    ensures Remembers(Noted(st, x), h + [x])
  {
    hide InTime, Stuck, First, Unbroken;
    NewRun(h, x);
    RunIsEnd(h);
    RunInTime(h, x);
    NotedStarts([], x);
    assert [] + [x] == [x];
    if st.None? {
      NotedStarts(Unbroken(h), x);
    } else if st.value.shortfall == x.shortfall {
      NotedResumes(st.value, Unbroken(h), x);
    }
  }

  lemma NothingSeen()
    ensures Remembers(None, [])
  {
  }

  lemma SeenBefore(st: Option<Stall>, h: seq<Sighting>, x: Sighting)
    requires Remembers(st, h) && InTime(h + [x])
    ensures st.Some? ==> st.value.since <= x.at
  {
    RunIsEnd(h);
    RunInTime(h, x);
    if st.Some? {
      var i: nat :| First(Unbroken(h), i) && Unbroken(h)[i].at == st.value.since;
      var q := Unbroken(h) + [x];
      assert q[i] == Unbroken(h)[i] && q[|q| - 1] == x;
    }
  }

  /** What the memory says about the Pool is what its sightings say. */
  lemma RememberedStuck(st: Option<Stall>, h: seq<Sighting>)
    requires Remembers(st, h)
    ensures Stuck(Unbroken(h)) <==> st.Some? && st.value.notFilling
    ensures st.Some? ==> exists i: nat :: First(Unbroken(h), i) && Unbroken(h)[i].at == st.value.since
  {
  }

  class PoolStalls {
    var pools: map<PoolKey, Stall>
    /** The sightings of each Pool since it was last forgotten. */
    ghost var history: map<PoolKey, seq<Sighting>>

    function State(key: PoolKey): Option<Stall>
      reads this
    {
      if key in pools then Some(pools[key]) else None
    }

    ghost function Seen(key: PoolKey): seq<Sighting>
      reads this
    {
      if key in history then history[key] else []
    }

    ghost predicate Valid()
      reads this
    {
      && (forall key | key in pools :: key in history)
      && forall key | key in history :: Remembers(State(key), history[key])
    }

    constructor ()
      ensures Valid() && pools == map[] && history == map[]
    {
      pools, history := map[], map[];
    }

    method Forget(key: PoolKey)
      requires Valid()
      modifies this
      ensures Valid() && pools == old(pools) - {key} && history == old(history)[key := []]
    {
      pools := pools - {key};
      history := history[key := []];
    }

    /**
     * Records one look at a Pool. It reports the Pool as not filling exactly when two stalled sightings in the current
     * unbroken run lie a minute apart, and otherwise asks for another look at a stalled Pool within that minute.
     */
    method Observe(key: PoolKey, shortfall: int, stalled: bool, now: Time) returns (nf: Option<NotFilling>, after: Time)
      requires Valid() && InTime(Seen(key) + [Sighting(shortfall, stalled, now)])
      modifies this
      ensures Valid() && history == old(history)[key := old(Seen(key)) + [Sighting(shortfall, stalled, now)]]
      ensures forall k | k != key :: State(k) == old(State(k))
      ensures nf.Some? <==> Stuck(Unbroken(Seen(key)))
      ensures nf.Some? ==>
                && nf.value.shortfall == shortfall
                && exists i: nat :: First(Unbroken(Seen(key)), i) && Unbroken(Seen(key))[i].at == nf.value.since
      ensures if stalled && nf.None? then 0 < after <= STALL_WAIT else after == 0
    {
      hide Remembers, Stuck, First, Unbroken, InTime;
      ghost var h := Seen(key);
      ghost var x := Sighting(shortfall, stalled, now);
      NothingSeen();
      NotedRemembers(State(key), h, x);
      SeenBefore(State(key), h, x);
      RememberedStuck(Noted(State(key), x), h + [x]);
      var st := State(key);
      if st.Some? && st.value.shortfall != shortfall {
        pools := pools - {key};
        st := None;
      }
      history := history[key := h + [x]];
      if st.None? {
        if !stalled {
          return None, 0;
        }
        st := Some(Stall(shortfall, now, false));
      }
      if stalled && now >= st.value.since + STALL_WAIT {
        st := Some(st.value.(notFilling := true));
      }
      pools := pools[key := st.value];
      if st.value.notFilling {
        return Some(NotFilling(st.value.shortfall, st.value.since)), 0;
      }
      if stalled {
        return None, st.value.since + STALL_WAIT - now;
      }
      return None, 0;
    }
  }
}
