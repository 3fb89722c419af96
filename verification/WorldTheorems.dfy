/** What holds of claims over every course: crashes, lost answers, retries and stale caches included. */
module WorldTheorems {
  import opened BatteryTypes
  import opened BatterySections
  import opened BatteryInvariant
  import opened BatteryHistory
  import opened BatteryTheorems
  import opened Claim
  import opened ExecAgent
  import opened World
  import opened WorldInvariant
  import opened WorldRuns

  ghost predicate Holding(w: World, n: Name, c: Claim) {
    n in w.names && Stored(w.names[n]) == Some(c)
  }

  lemma {:induction false} CourseGrows(worlds: seq<World>, moves: seq<Move>, placement: Placement, i: nat, j: nat)
    requires Course(worlds, moves) && worlds[0] == Start0(placement) && i <= j < |worlds|
    ensures Grows(worlds[i].b, worlds[j].b)
    decreases j
  {
    hide WorldOk, Moved, Grows;
    if i == j {
      GrowsRefl(worlds[i].b);
    } else {
      assert MovedAt(worlds, moves, j - 1);
      CourseGrows(worlds, moves, placement, i, j - 1);
      CourseOk(worlds, moves, placement, j - 1);
      BatteryOk(worlds[j - 1], moves[j - 1], worlds[j]);
      GrowsTrans(worlds[i].b, worlds[j - 1].b, worlds[j].b);
    }
  }

  lemma HeldOk(w: World, n: Name, c: Claim)
    requires WorldOk(w) && Holding(w, n, c)
    ensures ClaimOk(c, w.b.ledger) && c.uid in w.uids
  {
    hide Inv, ClaimOk;
    LocalAt(w, n);
    StoredOk(w.names[n], w.b.ledger);
  }

  // ----- Exclusivity -----

  /**
   * Two claims with different uids never record the same MicroVM, whenever and under whatever names they are stored.
   */
  lemma Exclusive(worlds: seq<World>, moves: seq<Move>, placement: Placement, i: nat, j: nat, m: Name, n: Name, c: Claim, d: Claim)
    requires Course(worlds, moves) && worlds[0] == Start0(placement) && i <= j < |worlds|
    requires Holding(worlds[i], m, c) && Holding(worlds[j], n, d) && c.uid != d.uid
    requires c.status.vm != ""
    ensures c.status.vm != d.status.vm
  {
    hide WorldOk, Course, Inv, Holding;
    CourseOk(worlds, moves, placement, i);
    CourseOk(worlds, moves, placement, j);
    CourseGrows(worlds, moves, placement, i, j);
    HeldOk(worlds[i], m, c);
    HeldOk(worlds[j], n, d);
    BatteryAt(worlds[j]);
    if c.status.vm == d.status.vm {
      Once(worlds[j].b, c.status.lease, d.status.lease);
    }
  }

  lemma BatteryAt(w: World)
    requires WorldOk(w)
    ensures Inv(w.b)
  {
  }

  /** No two claims with different uids ever pass the Exec Agent's check for one MicroVM. */
  lemma NeverBothAuthorized(worlds: seq<World>, moves: seq<Move>, placement: Placement, i: nat, j: nat, m: Name, n: Name,
                            c: Claim, d: Claim, caller: Caller, other: Caller, vm: string, host: string, node: string,
                            now: Time, later: Time)
    requires Course(worlds, moves) && worlds[0] == Start0(placement) && i <= j < |worlds|
    requires Holding(worlds[i], m, c) && Holding(worlds[j], n, d) && c.uid != d.uid
    ensures !(&& Authorize(FactsOf(m.namespace, m.name, c), caller, vm, host, now)
              && Authorize(FactsOf(n.namespace, n.name, d), other, vm, node, later))
  {
    hide Course, Holding;
    if c.status.vm != "" {
      Exclusive(worlds, moves, placement, i, j, m, n, c, d);
    }
  }

  // ----- The history of a claim -----

  /** The stored claim after a move is the one before it, later, or a new one with a new uid. */
  lemma MoveStored(w: World, m: Move, v: World, n: Name, d: Claim)
    requires WorldOk(w) && Moved(w, m, v) && Holding(v, n, d)
    ensures (exists c :: Holding(w, n, c) && Later(c, d)) || d.uid !in w.uids
  {
    hide WorldOk, Later, LocalOk, Moved, CanLocal, NextL;
    if IsLocal(m) {
      LocalDo(w, m, v);
      NextOk(w, m);
      if n == m.name {
        assert Holding(w, n, Stored(w.names[n]).value);
      } else {
        SameClaim(w, n, d);
      }
    } else if m.Create? {
      CreatedStored(w, m, v, n, d);
      SameClaim(w, n, d);
    } else {
      OtherStored(w, m, v, n, d);
      SameClaim(w, n, d);
    }
  }

  lemma CreatedStored(w: World, m: Move, v: World, n: Name, d: Claim)
    requires Moved(w, m, v) && m.Create?
    ensures Creatable(w, m.name, m.claim)
    ensures Holding(v, n, d) ==> (if n == m.name then d == m.claim else Holding(w, n, d))
    ensures Holding(w, n, d) ==> n != m.name && Holding(v, n, d)
  {
    hide Next;
  }

  lemma SameClaim(w: World, n: Name, d: Claim)
    ensures Holding(w, n, d) ==> exists c :: Holding(w, n, c) && Later(c, d)
  {
    Reflexive(d);
  }

  lemma OtherStored(w: World, m: Move, v: World, n: Name, d: Claim)
    requires Moved(w, m, v) && !IsLocal(m) && !m.Create?
    ensures Holding(w, n, d) <==> Holding(v, n, d)
  {
    hide Runs, CalledPc, MaySelect, LapsedAfter;
  }

  /**
   * From one stored version of a claim to any later one, the recorded Lease and MicroVM stay once they are written,
   * and the phase only moves forward.
   */
  lemma {:induction false} HistoryMovesOn(worlds: seq<World>, moves: seq<Move>, placement: Placement, i: nat, j: nat, n: Name,
                                          c: Claim, d: Claim)
    requires Course(worlds, moves) && worlds[0] == Start0(placement) && i <= j < |worlds|
    requires Holding(worlds[i], n, c) && Holding(worlds[j], n, d) && c.uid == d.uid
    ensures Later(c, d)
    decreases j
  {
    hide WorldOk, Moved, Later;
    if i == j {
      Reflexive(c);
    } else {
      assert MovedAt(worlds, moves, j - 1);
      CourseOk(worlds, moves, placement, i);
      CourseOk(worlds, moves, placement, j - 1);
      HeldOk(worlds[i], n, c);
      GivenUids(worlds, moves, placement, i, j - 1);
      MoveStored(worlds[j - 1], moves[j - 1], worlds[j], n, d);
      var e :| Holding(worlds[j - 1], n, e) && Later(e, d);
      LaterUid(e, d);
      HistoryMovesOn(worlds, moves, placement, i, j - 1, n, c, e);
      LaterTrans(c, e, d);
    }
  }

  lemma LaterUid(c: Claim, d: Claim)
    requires Later(c, d)
    ensures c.uid == d.uid
  {
  }

  lemma {:induction false} GivenUids(worlds: seq<World>, moves: seq<Move>, placement: Placement, i: nat, j: nat)
    requires Course(worlds, moves) && i <= j < |worlds|
    ensures worlds[i].uids <= worlds[j].uids
    decreases j
  {
    hide Moved;
    if i < j {
      assert MovedAt(worlds, moves, j - 1);
      GivenUids(worlds, moves, placement, i, j - 1);
      MoveUids(worlds[j - 1], moves[j - 1], worlds[j]);
    }
  }

  lemma MoveUids(w: World, m: Move, v: World)
    requires Moved(w, m, v)
    ensures w.uids <= v.uids
  {
    hide Runs, CalledL, MaySelect, LapsedAfter, NextL, RecoveredAfter, CanLocal;
  }

  /** ClaimVM is called only for a claim the API server stores with the release finalizer and no Lease, under its own uid. */
  lemma ClaimsOnlyStored(w: World, n: Name, c: CallId, prior: Option<string>, vm: Option<nat>)
    requires WorldOk(w) && CanCall(w, CallClaim(n, c, prior, vm))
    ensures Stored(w.names[n]).Some?
    ensures var d := Stored(w.names[n]).value;
            d.release && d.status.lease == "" && Rec(w, n).pc.request == d.uid && Rec(w, n).obj.pool == d.pool
  {
    hide Inv, ClaimOk, MaySelect;
    LocalAt(w, n);
  }

  // ----- Release -----

  /** The stored claim has the release finalizer before the move, and not after it. */
  predicate Unfinalizes(w: World, v: World, n: Name) {
    && n in w.names && Stored(w.names[n]).Some? && Stored(w.names[n]).value.release
    && n in v.names && (Stored(v.names[n]).Some? ==> !Stored(v.names[n]).value.release)
  }

  /**
   * The release finalizer leaves a stored claim only if the claim records no Lease, or battery has released
   * the recorded Lease or reported it unknown, so that it is not held and never will be.
   */
  lemma ReleaseIsSafe(w: World, m: Move, v: World, n: Name)
    requires WorldOk(w) && Moved(w, m, v) && Unfinalizes(w, v, n)
    ensures var l := Stored(w.names[n]).value.status.lease;
            m == Patch(n) && (l == "" || HasEnded(w.b.ledger, l))
  {
    hide WorldOk, StoredStep, LocalOk, Moved, NextL, PatchL;
    if IsLocal(m) {
      LocalDo(w, m, v);
      NextOk(w, m);
      if m == Patch(n) {
        LocalAt(w, n);
        PatchNext(w, n);
        PatchReleases(w.names[n], w.b.ledger);
      }
    } else if m.Create? {
      CreatedStored(w, m, v, n, Stored(w.names[n]).value);
    } else {
      OtherStored(w, m, v, n, Stored(w.names[n]).value);
    }
  }

  lemma PatchNext(w: World, n: Name)
    requires Running(w, n)
    ensures NextL(w, Patch(n)) == PatchL(w.names[n], Rec(w, n))
  {
    hide PatchL;
  }

  /** The patch that takes the finalizer off was made from the stored version itself. */
  lemma PatchReleases(x: Local, ledger: map<string, Entry>)
    requires LocalOk(x, ledger) && x.rec.Some? && x.rec.value.pc.Patching? && Stored(x).Some? && Stored(x).value.release
    requires !Finalized(x, PatchL(x, x.rec.value))
    ensures var l := Stored(x).value.status.lease; l == "" || HasEnded(ledger, l)
  {
    hide ClaimOk, Later;
  }

  /** Once the finalizer has left a claim, the Lease it recorded is not held, then or ever after. */
  lemma ReleasedForGood(worlds: seq<World>, moves: seq<Move>, placement: Placement, i: nat, j: nat, n: Name)
    requires Course(worlds, moves) && worlds[0] == Start0(placement) && i < |moves| && i <= j < |worlds|
    requires Unfinalizes(worlds[i], worlds[i + 1], n)
    ensures Stored(worlds[i].names[n]).value.status.lease !in worlds[j].b.leases
  {
    hide WorldOk, Moved, Inv;
    CourseOk(worlds, moves, placement, i);
    CourseOk(worlds, moves, placement, j);
    CourseGrows(worlds, moves, placement, i, j);
    assert MovedAt(worlds, moves, i);
    ReleaseIsSafe(worlds[i], moves[i], worlds[i + 1], n);
    BatteryAt(worlds[j]);
    EndedStays(worlds[j].b, Stored(worlds[i].names[n]).value.status.lease);
  }

  lemma EndedStays(s: State, l: string)
    requires Inv(s)
    ensures l == "" || HasEnded(s.ledger, l) ==> l !in s.leases
  {
    hide PoolsOk, IdsOk, UidsOk, WorkersOk, PhasesOk, ClaimsOk, ReleasesOk, CallsOk, RequestsOk, OnceOk, HostsOk, AnswersOk, SweptOk, LogOk;
    hide Backed;
  }
}
