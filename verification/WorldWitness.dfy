/** A course in which a claim is stored Expired although battery holds its Lease and the Lease has not run out. */
module WorldWitness {
  import opened BatteryTypes
  import opened BatterySections
  import opened BatteryInvariant
  import opened BatteryFields
  import opened BatteryRevival
  import opened BatteryPopulation
  import opened BatteryExpiry
  import opened BatteryWitnesses
  import opened Claim
  import opened World
  import opened WorldTheorems
  import opened WorldSound

  /** Some course from the empty world leads to the world, and no Lease lapses on the way. */
  ghost predicate Reached(w: World) {
    exists worlds: seq<World>, moves: seq<Move> :: Leads(worlds, moves, w)
  }

  ghost predicate Leads(worlds: seq<World>, moves: seq<Move>, w: World) {
    && Course(worlds, moves) && worlds[0] == Start0(LeastVMs) && worlds[|moves|] == w
    && forall k | 0 <= k < |moves| :: !moves[k].CallList?
  }

  lemma Goes(w: World, m: Move, v: World)
    requires Reached(w) && Moved(w, m, v) && !m.CallList?
    ensures Reached(v)
  {
    hide Moved;
    var worlds: seq<World>, moves: seq<Move> :| Leads(worlds, moves, w);
    var us, ms := worlds + [v], moves + [m];
    forall i: nat | i < |ms| ensures MovedAt(us, ms, i) {
      assert i < |moves| ==> MovedAt(worlds, moves, i);
    }
    assert Leads(us, ms, v);
  }

  /** Battery runs a section on its own. */
  lemma MoveBattery(w: World, step: Step, t: State)
    requires Reached(w) && Next(w.b, step, t)
    ensures Reached(w.(b := t))
  {
    hide Next, Reached;
    Goes(w, Battery(step), w.(b := t));
  }

  lemma {:induction false} RunReached(states: seq<State>, steps: seq<Step>, j: nat)
    requires Run(states, steps) && states[0] == Init(LeastVMs) && j < |states|
    ensures Reached(Start0(LeastVMs).(b := states[j]))
  {
    hide Next, Moved;
    if j == 0 {
      assert Leads([Start0(LeastVMs)], [], Start0(LeastVMs));
    } else {
      assert NextAt(states, steps, j - 1);
      RunReached(states, steps, j - 1);
      MoveBattery(Start0(LeastVMs).(b := states[j - 1]), steps[j - 1], states[j]);
    }
  }

  lemma BatteryReached(s: State)
    requires Reachable(s)
    ensures Reached(Start0(LeastVMs).(b := s))
  {
    hide Next, Reached;
    var states: seq<State>, steps: seq<Step> :| LeadsTo(states, steps, s);
    RunReached(states, steps, |steps|);
  }

  // ----- The claim -----

  const NAME: Name := PoolKey("c", "n")
  const CLAIM := Claim("u", KEY, "", None, false, {}, false, EMPTY)
  const HELD := CLAIM.(release := true)

  /** The world with the one claim. */
  function With(b: State, x: Local, deleted: set<string>): World {
    World(map[NAME := x], {"u"}, deleted, Idle, map[], {}, b)
  }

  lemma MoveLocal(b: State, x: Local, deleted: set<string>, m: Move, y: Local)
    requires Reached(With(b, x, deleted)) && IsLocal(m) && m.name == NAME && !m.LookUp? && CanLocal(With(b, x, deleted), m)
    requires y == NextL(With(b, x, deleted), m)
    ensures Reached(With(b, y, deleted))
  {
    hide Reached, NextL, CanLocal;
    var w := With(b, x, deleted);
    assert With(b, y, deleted).names == w.names[NAME := y];
    Goes(w, m, With(b, y, deleted));
  }

  lemma Sees(b: State, stale: Version, latest: Version, deleted: set<string>)
    requires Reached(With(b, Local([stale, latest], None), deleted))
    ensures Reached(With(b, Local([latest], None), deleted))
  {
    hide Reached;
    assert [stale, latest][1..] == [latest];
    MoveLocal(b, Local([stale, latest], None), deleted, See(NAME), Local([latest], None));
  }

  lemma Writes(b: State, rv: nat, c: Claim, status: Status, deleted: set<string>)
    requires Reached(With(b, Local([Version(rv, Some(c))], Some(Reconcile(rv, c, c.(status := status), Writing))), deleted))
    requires MergeStatus(c.status, c.status, status) == status != c.status
    ensures Reached(With(b, Local([Version(rv, Some(c)), Version(rv + 1, Some(c.(status := status)))], None), deleted))
  {
    hide Reached, MergeStatus;
    var x := Local([Version(rv, Some(c))], Some(Reconcile(rv, c, c.(status := status), Writing)));
    var y := Local([Version(rv, Some(c)), Version(rv + 1, Some(c.(status := status)))], None);
    assert WriteL(x, x.rec.value) == y;
    MoveLocal(b, x, deleted, Write(NAME), y);
  }

  /** It is created and seen. */
  lemma Creates(s: State)
    requires Reached(Start0(LeastVMs).(b := s))
    ensures Reached(With(s, Local([Version(1, Some(CLAIM))], None), {}))
  {
    hide Reached;
    var w := Start0(LeastVMs).(b := s);
    var x := Local([Version(0, None), Version(1, Some(CLAIM))], None);
    assert Store(Local([Version(0, None)], None), Some(CLAIM)) == x;
    assert CreateW(w, NAME, CLAIM) == With(s, x, {});
    Goes(w, Create(NAME, CLAIM), With(s, x, {}));
    Sees(s, Version(0, None), Version(1, Some(CLAIM)), {});
  }

  /** It is given its finalizer, which is seen. */
  lemma Finalizes(s: State)
    requires Reached(With(s, Local([Version(1, Some(CLAIM))], None), {}))
    ensures Reached(With(s, Local([Version(2, Some(HELD))], None), {}))
  {
    hide Reached;
    var x := Local([Version(1, Some(CLAIM))], None);
    var y := x.(rec := Some(Reconcile(1, CLAIM, HELD, Patching)));
    MoveLocal(s, x, {}, Begin(NAME), y);
    Patches(s, y);
    Sees(s, Version(1, Some(CLAIM)), Version(2, Some(HELD)), {});
  }

  lemma Patches(s: State, y: Local)
    requires Reached(With(s, y, {})) && y == Local([Version(1, Some(CLAIM))], Some(Reconcile(1, CLAIM, HELD, Patching)))
    ensures Reached(With(s, Local([Version(1, Some(CLAIM)), Version(2, Some(HELD))], None), {}))
  {
    hide Reached;
    var z := Local([Version(1, Some(CLAIM)), Version(2, Some(HELD))], None);
    assert PatchL(y, y.rec.value) == z;
    MoveLocal(s, y, {}, Patch(NAME), z);
  }

  function Binding(pc: Pc): Local {
    Local([Version(2, Some(HELD))], Some(Reconcile(2, HELD, HELD, pc)))
  }

  /** Bind is about to ask for a MicroVM. */
  lemma Asks(s: State)
    requires Reached(With(s, Local([Version(2, Some(HELD))], None), {}))
    ensures Reached(With(s, Binding(Asking("u")), {}))
  {
    hide Reached;
    MoveLocal(s, Local([Version(2, Some(HELD))], None), {}, Begin(NAME), Binding(Reading));
    MoveLocal(s, Binding(Reading), {}, Read(NAME, false), Binding(Asking("u")));
  }

  /** Battery selects a MicroVM. */
  lemma Calls(s: State, c: CallId, v: nat, t: State)
    requires Reached(With(s, Binding(Asking("u")), {})) && MaySelect(s, c, KEY, "u", None, Some(v))
    requires Next(s, ClaimSelect(c, KEY, "u", None, Some(v)), t)
    ensures Reached(With(t, Binding(Asked(c, "u")), {}))
  {
    hide Reached, MaySelect, Next;
    var w := With(s, Binding(Asking("u")), {});
    var u := With(t, Binding(Asked(c, "u")), {});
    var m := CallClaim(NAME, c, None, Some(v));
    assert CalledL(w, m) == Binding(Asked(c, "u"));
    assert u.names == w.names[NAME := CalledL(w, m)];
    Goes(w, m, u);
  }

  /** The deletion of the MicroVM is received. */
  lemma Hears(s: State, x: Local, u: string)
    requires Reached(With(s, x, {})) && Reported(s.log, u)
    ensures Reached(With(s, x, {u}))
  {
    hide Reached;
    var i :| 0 <= i < |s.log| && ReportsDeletion(s.log[i]) && s.log[i].vm == u;
    Goes(With(s, x, {}), Report(i), With(s, x, {u}));
  }

  function BoundOf(l: string, u: string, h: string): Claim {
    HELD.(status := Status(Bound, l, u, h, None, None))
  }

  function ExpiredOf(l: string, u: string, h: string): Claim {
    HELD.(status := Status(Expired, l, u, h, None, None))
  }

  /** The Lease is recorded, and seen. */
  lemma Binds(s: State, c: CallId, l: string, u: string, h: string)
    requires Reached(With(s, Binding(Asked(c, "u")), {u}))
    requires c in s.answers && s.answers[c] == Claimed(KEY, "u", Granted(l, u, h))
    ensures Reached(With(s, Local([Version(3, Some(BoundOf(l, u, h)))], None), {u}))
  {
    hide Reached;
    Answers(s, c, l, u, h);
    Writes(s, 2, HELD, BoundOf(l, u, h).status, {u});
    Sees(s, Version(2, Some(HELD)), Version(3, Some(BoundOf(l, u, h))), {u});
  }

  lemma Answers(s: State, c: CallId, l: string, u: string, h: string)
    requires Reached(With(s, Binding(Asked(c, "u")), {u}))
    requires c in s.answers && s.answers[c] == Claimed(KEY, "u", Granted(l, u, h))
    ensures Reached(With(s, Local([Version(2, Some(HELD))], Some(Reconcile(2, HELD, BoundOf(l, u, h), Writing))), {u}))
  {
    hide Reached;
    var y := Local([Version(2, Some(HELD))], Some(Reconcile(2, HELD, BoundOf(l, u, h), Writing)));
    assert AnsweredL(Binding(Asked(c, "u")), Binding(Asked(c, "u")).rec.value, Granted(l, u, h)) == y;
    MoveLocal(s, Binding(Asked(c, "u")), {u}, Answer(NAME), y);
  }

  /** The next reconcile knows of the deletion. */
  lemma Expires(s: State, l: string, u: string, h: string)
    requires Reached(With(s, Local([Version(3, Some(BoundOf(l, u, h)))], None), {u})) && l != ""
    ensures Reached(With(s, Local([Version(3, Some(BoundOf(l, u, h))), Version(4, Some(ExpiredOf(l, u, h)))], None), {u}))
  {
    hide Reached;
    Watches(s, l, u, h);
    Writes(s, 3, BoundOf(l, u, h), ExpiredOf(l, u, h).status, {u});
  }

  lemma Watches(s: State, l: string, u: string, h: string)
    requires Reached(With(s, Local([Version(3, Some(BoundOf(l, u, h)))], None), {u})) && l != ""
    ensures Reached(With(s, Local([Version(3, Some(BoundOf(l, u, h)))], Some(Reconcile(3, BoundOf(l, u, h), ExpiredOf(l, u, h), Writing))), {u}))
  {
    hide Reached;
    var b := BoundOf(l, u, h);
    var x := Local([Version(3, Some(b))], None);
    var y := x.(rec := Some(Reconcile(3, b, b, Watching)));
    MoveLocal(s, x, {u}, Begin(NAME), y);
    MoveLocal(s, y, {u}, Watch(NAME), x.(rec := Some(Reconcile(3, b, ExpiredOf(l, u, h), Writing))));
  }

  // ----- The battery -----

  /** A running manager with one available MicroVM. */
  lemma OneAvailable() returns (s: State, v: nat)
    ensures Reachable(s) && Roomy(s) && Warm(s) == {v} && v in s.vms && s.vms[v].phase == Available && s.leases == map[]
  {
    hide Next, Reachable, Warm, TickPoolS;
    ReadyHolds();
    ReachableInv(READY);
    PlacedOne(READY);
    Ticks(READY);
    v := READY.nextVM + 1;
    s := Provisioned(TickPoolS(READY, KEY), Task(READY.nextTask), v);
  }

  /** A claim of the Pool takes it into its hooks. */
  lemma Selected(s: State, v: nat) returns (c: CallId, t: State)
    requires Roomy(s) && Warm(s) == {v} && v in s.vms && s.vms[v].phase == Available && s.leases == map[]
    ensures MaySelect(s, c, KEY, "u", None, Some(v)) && Next(s, ClaimSelect(c, KEY, "u", None, Some(v)), t)
    ensures InHooks(t, c) && t.calls[c].request == "u" && t.leases == map[]
  {
    hide Next, Warm, SelectS, IsOldest;
    InPool(s, v);
    OnlyOne(s, v);
    c := NewCall(s);
    t := SelectS(s, c, KEY, "u", None, Some(v));
    SelectsNext(s, c, v);
    TakeFields(s, c, KEY, "u", None, Some(v));
  }

  lemma SelectsNext(s: State, c: CallId, v: nat)
    requires MaySelect(s, c, KEY, "u", None, Some(v))
    ensures Next(s, ClaimSelect(c, KEY, "u", None, Some(v)), SelectS(s, c, KEY, "u", None, Some(v)))
  {
    hide SelectS, MaySelect, MayAdmin, DoAdmin, MayRoutine, DoRoutine, MayTick, DoTick;
  }

  /** The claim of a Pool that is deleted and created again is granted a Lease on a MicroVM that was reported deleted. */
  lemma Commits(s: State, c: CallId) returns (l: string, t: State, u: string, h: string)
    requires Inv(s) && Outlived(s, c, Drained(SPEC)) && s.calls[c].request == "u" && s.leases == map[]
    ensures Next(s, ClaimCommit(c, None, l), t) && Reported(s.log, u)
    ensures c in t.answers && t.answers[c] == Claimed(KEY, "u", Granted(l, u, h))
    ensures l != "" && l in t.leases && t.leases[l].expiresAt > t.now
  {
    hide Next, Inv, CommitS, FreshLease, Reported;
    l := NewLeaseId(s);
    t := CommitS(s, c, None, l);
    u, h := s.vms[s.calls[c].vm].uid, s.vms[s.calls[c].vm].host;
    CommitNext(s, c, l);
    CommitFields(s, c, l);
    assert l != "" by {
      assert FreshLease(s, l);
    }
  }

  lemma CommitFields(s: State, c: CallId, l: string)
    requires Outlived(s, c, Drained(SPEC)) && MayCommit(s, c, None, l)
    ensures var t := CommitS(s, c, None, l);
            var vm := s.vms[s.calls[c].vm];
            && t.now == s.now && c in t.answers && t.answers[c] == Claimed(KEY, s.calls[c].request, Granted(l, vm.uid, vm.host))
            && l in t.leases && t.leases[l].expiresAt == s.now + 2
  {
    hide GrantS, ProvisionN, IsPrior, FreshLease, Logged, Reported;
    GrantFields(s, c, l);
  }

  /**
   * A claim is created and asks for a MicroVM; its Pool is deleted by force and created again while its hooks run, and the
   * deletion is received; battery then grants the Lease, which the controller records, and the next reconcile stores the
   * claim Expired. Battery holds the Lease, it has not run out, and none was found to have run out.
   */
  lemma ExpiredWhileHeld() returns (worlds: seq<World>, moves: seq<Move>, c: Claim)
    ensures Course(worlds, moves) && worlds[0] == Start0(LeastVMs)
    ensures var w := worlds[|moves|];
            && Holding(w, NAME, c) && c.status.phase == Expired
            && c.status.lease in w.b.leases && w.b.leases[c.status.lease].expiresAt > w.b.now
    ensures forall k | 0 <= k < |moves| :: !Lapses(worlds[k], moves[k], c.status.lease)
  {
    hide Reached, Reachable, Next, Inv, Moved, Warm, Outlived, InHooks, MaySelect, Reported;
    var s, v := OneAvailable();
    BatteryReached(s);
    Creates(s);
    Finalizes(s);
    Asks(s);
    var call, t := Selected(s, v);
    Calls(s, call, v, t);
    var l, u, h, z := Recommits(s, call, v, t);
    Binds(z, call, l, u, h);
    Expires(z, l, u, h);
    var w := With(z, Local([Version(3, Some(BoundOf(l, u, h))), Version(4, Some(ExpiredOf(l, u, h)))], None), {u});
    worlds, moves, c := Traced(w, ExpiredOf(l, u, h));
  }

  lemma Recommits(s: State, c: CallId, v: nat, t: State) returns (l: string, u: string, h: string, z: State)
    requires Reachable(s) && Next(s, ClaimSelect(c, KEY, "u", None, Some(v)), t)
    requires InHooks(t, c) && t.calls[c].request == "u" && t.leases == map[]
    requires Reached(With(t, Binding(Asked(c, "u")), {}))
    ensures Reached(With(z, Binding(Asked(c, "u")), {u}))
    ensures c in z.answers && z.answers[c] == Claimed(KEY, "u", Granted(l, u, h))
    ensures l != "" && l in z.leases && z.leases[l].expiresAt > z.now
  {
    hide Reached, Reachable, Next, Inv, Outlived, Reported;
    Onward(s, ClaimSelect(c, KEY, "u", None, Some(v)), t);
    ReachableInv(t);
    var order, a, b := Recreated(t, c, Drained(SPEC));
    Onward(t, DeletePool(KEY, true, order), a);
    Onward(a, CreatePool(KEY, Drained(SPEC)), b);
    ReachableInv(b);
    MoveBattery(With(t, Binding(Asked(c, "u")), {}), DeletePool(KEY, true, order), a);
    MoveBattery(With(a, Binding(Asked(c, "u")), {}), CreatePool(KEY, Drained(SPEC)), b);
    l, z, u, h := Commits(b, c);
    Hears(b, Binding(Asked(c, "u")), u);
    MoveBattery(With(b, Binding(Asked(c, "u")), {u}), ClaimCommit(c, None, l), z);
  }

  lemma Traced(w: World, d: Claim) returns (worlds: seq<World>, moves: seq<Move>, c: Claim)
    requires Reached(w) && Holding(w, NAME, d)
    ensures c == d && Course(worlds, moves) && worlds[0] == Start0(LeastVMs) && worlds[|moves|] == w
    ensures forall k | 0 <= k < |moves| :: !Lapses(worlds[k], moves[k], c.status.lease)
  {
    hide Moved;
    worlds, moves :| Leads(worlds, moves, w);
    c := d;
  }
}
