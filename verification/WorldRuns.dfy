/** Every move keeps the invariant, so every course does; and what that means for claims. */
module WorldRuns {
  import opened BatteryTypes
  import opened BatterySections
  import opened BatteryInvariant
  import opened BatteryHistory
  import opened BatteryTheorems
  import opened Claim
  import opened World
  import opened WorldInvariant

  ghost predicate NamesOk(names: map<Name, Local>, ledger: map<string, Entry>) {
    forall n | n in names :: LocalOk(names[n], ledger)
  }

  /** Every stored claim has a uid that was given out. */
  ghost predicate UidsGiven(names: map<Name, Local>, uids: set<string>) {
    forall n | n in names && Stored(names[n]).Some? :: Stored(names[n]).value.uid in uids
  }

  ghost predicate WorldOk(w: World) {
    Inv(w.b) && NamesOk(w.names, w.b.ledger) && UidsGiven(w.names, w.uids)
  }

  /** What a move may do to the stored claim of a name. */
  ghost predicate StoredStep(x: Local, y: Local) {
    && (Stored(y).Some? ==> Stored(x).Some?)
    && (Stored(x).Some? && Stored(y).Some? ==> Later(Stored(x).value, Stored(y).value))
  }

  /** The stored claim keeps the release finalizer. */
  predicate Finalized(x: Local, y: Local) {
    Stored(x).Some? && Stored(x).value.release ==> Stored(y).Some? && Stored(y).value.release
  }

  // ----- Moves within one name -----

  lemma EditStored(x: Local, t: Time, f: string, on: bool)
    ensures StoredStep(x, DeleteL(x)) && StoredStep(x, RenewL(x, t)) && StoredStep(x, FinalizerL(x, f, on))
    ensures Finalized(x, DeleteL(x)) && Finalized(x, RenewL(x, t)) && Finalized(x, FinalizerL(x, f, on))
  {
  }

  lemma SameStored(x: Local, y: Local)
    requires Stored(x) == Stored(y)
    ensures StoredStep(x, y) && Finalized(x, y)
  {
  }

  lemma SeeStored(x: Local)
    ensures StoredStep(x, SeeL(x)) && StoredStep(x, BeginL(x)) && StoredStep(x, Over(x))
    ensures Finalized(x, SeeL(x)) && Finalized(x, BeginL(x)) && Finalized(x, Over(x))
  {
  }

  lemma PatchStored(x: Local, r: Reconcile)
    ensures StoredStep(x, PatchL(x, r))
  {
  }

  lemma WriteStored(x: Local, ledger: map<string, Entry>)
    requires LocalOk(x, ledger) && x.rec.Some? && x.rec.value.pc.Writing?
    ensures StoredStep(x, WriteL(x, x.rec.value)) && Finalized(x, WriteL(x, x.rec.value))
  {
    hide Later, MergeStatus, ClaimOk;
    if Stored(x).Some? {
      StoredOk(x, ledger);
      WriterAnchored(x, ledger);
      MergeOk(Stored(x).value, x.rec.value, ledger);
      Reflexive(Stored(x).value);
    }
  }

  lemma Reflexive(c: Claim)
    ensures Later(c, c)
  {
  }

  lemma RecStored(w: World, x: Local, r: Reconcile, flag: bool)
    ensures Stored(ReadL(x, r, flag)) == Stored(LostL(x, r)) == Stored(WatchL(x, r, w.deleted)) == Stored(x)
    ensures Stored(LookUpL(x, r, w.recovered)) == Stored(CheckL(x, r, w.b.now)) == Stored(x)
    ensures Arrived(w, r) ==> Stored(AnswerL(w, x, r)) == Stored(x)
  {
  }

  // ----- The invariant -----

  lemma SetNameOk(w: World, n: Name, x: Local)
    requires WorldOk(w) && n in w.names && LocalOk(x, w.b.ledger) && StoredStep(w.names[n], x)
    ensures WorldOk(SetName(w, n, x))
  {
    hide Inv, LocalOk;
  }

  /** A released Lease has ended. */
  lemma ReleaseEnded(w: World, n: Name)
    requires WorldOk(w) && Running(w, n) && Rec(w, n).pc.ReleaseCalled? && Arrived(w, Rec(w, n))
    ensures var answer := w.b.answers[Rec(w, n).pc.call].answer;
            answer == Done || answer == NotFound ==> HasEnded(w.b.ledger, Rec(w, n).obj.status.lease)
  {
    hide Inv, ViewOk, Holds;
    var r := Rec(w, n);
    assert LocalOk(w.names[n], w.b.ledger);
    Told(w.b, r.pc.call);
    Ended(w.b, r.obj.status.lease);
  }

  /** A granted Lease is what battery recorded for the request. */
  lemma GrantRecorded(w: World, n: Name)
    requires WorldOk(w) && Running(w, n) && Rec(w, n).pc.Asked? && Arrived(w, Rec(w, n))
    ensures var answer := w.b.answers[Rec(w, n).pc.call].answer;
            answer.Granted? ==>
              && answer.lease != "" && answer.lease in w.b.ledger
              && var lease := w.b.ledger[answer.lease].lease;
                 lease.vm == answer.vm && lease.pool == Rec(w, n).obj.pool && lease.request == Rec(w, n).pc.request
  {
    hide Inv, NamesOk;
    Told(w.b, Rec(w, n).pc.call);
    NamedLeases(w.b);
  }

  lemma NamedLeases(s: State)
    requires Inv(s)
    ensures forall l | l in s.ledger :: l != "" && s.ledger[l].lease.vm != ""
  {
    hide PoolsOk, IdsOk, UidsOk, LeasesOk, WorkersOk, PhasesOk, ClaimsOk, ReleasesOk, CallsOk, RequestsOk, OnceOk, HostsOk, AnswersOk, SweptOk, LogOk;
  }

  lemma AnswerOk(w: World, n: Name)
    requires WorldOk(w) && Running(w, n) && Arrived(w, Rec(w, n))
    ensures LocalOk(AnswerL(w, w.names[n], Rec(w, n)), w.b.ledger)
  {
    hide WorldOk, ViewOk, ClaimOk, Holds, RecOk;
    LocalAt(w, n);
    var x := w.names[n];
    var r := Rec(w, n);
    match r.pc
    case ReleaseCalled(c) =>
      ReleaseEnded(w, n);
      ReleasedOk(x, w.b.answers[c].answer, w.b.ledger);
    case Asked(c, _) =>
      GrantRecorded(w, n);
      AnsweredOk(x, w.b.answers[c].answer, w.b.ledger);
    case Renewed(answer) =>
      AtBound(x, w.b.ledger);
      BoundAnswerOk(x, answer, r.pc, w.b.ledger);
    case Listed(_, answer) =>
      AtBound(x, w.b.ledger);
      BoundAnswerOk(x, answer, r.pc, w.b.ledger);
  }

  lemma LocalAt(w: World, n: Name)
    requires WorldOk(w) && n in w.names
    ensures LocalOk(w.names[n], w.b.ledger)
  {
  }

  predicate AtBoundStep(pc: Pc) {
    pc.Watching? || pc.Recovering? || pc.Renewing? || pc.Renewed? || pc.Checking? || pc.Listing? || pc.Listed?
  }

  lemma AtBound(x: Local, ledger: map<string, Entry>)
    requires LocalOk(x, ledger) && x.rec.Some? && AtBoundStep(x.rec.value.pc)
    ensures BoundCopy(x.rec.value) && x.rec.value.obj.status.phase == Bound
  {
    hide ClaimOk, Holds;
  }

  lemma BoundAnswerOk(x: Local, answer: Option<Time>, pc: Pc, ledger: map<string, Entry>)
    requires LocalOk(x, ledger) && x.rec.Some? && BoundCopy(x.rec.value) && x.rec.value.obj.status.phase == Bound
    requires pc == x.rec.value.pc
    ensures pc.Renewed? ==> LocalOk(RenewedL(x, x.rec.value, answer), ledger)
    ensures pc.Listed? ==> LocalOk(ListedL(x, x.rec.value, pc.now, answer), ledger)
  {
    hide LocalOk, BoundCopy;
    var r := x.rec.value;
    var status := r.obj.status;
    BoundOk(x, Writing, Expired, status.expires, status.observed, ledger);
    if answer.Some? {
      BoundOk(x, Checking, Bound, answer, r.obj.renew, ledger);
      BoundOk(x, Writing, Bound, answer, status.observed, ledger);
    }
  }

  lemma BoundStepOk(x: Local, deleted: set<string>, recovered: map<string, Option<Time>>, now: Time, ledger: map<string, Entry>)
    requires LocalOk(x, ledger) && x.rec.Some? && AtBoundStep(x.rec.value.pc)
    ensures LocalOk(WatchL(x, x.rec.value, deleted), ledger)
    ensures LocalOk(LookUpL(x, x.rec.value, recovered), ledger)
    ensures LocalOk(CheckL(x, x.rec.value, now), ledger)
  {
    hide LocalOk, BoundCopy;
    AtBound(x, ledger);
    var r := x.rec.value;
    var status := r.obj.status;
    BoundOk(x, Writing, Expired, status.expires, status.observed, ledger);
    BoundOk(x, Recovering, Bound, status.expires, status.observed, ledger);
    BoundOk(x, Renewing, Bound, status.expires, status.observed, ledger);
    BoundOk(x, Checking, Bound, status.expires, status.observed, ledger);
    BoundOk(x, Listing(now), Bound, status.expires, status.observed, ledger);
    BoundOk(x, Writing, Bound, status.expires, status.observed, ledger);
    var l := status.lease;
    if l in recovered && recovered[l].Some? {
      BoundOk(x, Renewing, Bound, recovered[l], status.observed, ledger);
      BoundOk(x, Checking, Bound, recovered[l], status.observed, ledger);
    }
  }

  lemma ReconcileOk(w: World, m: Move)
    requires WorldOk(w) && IsStep(m) && Running(w, m.name) && CanStep(w, m, Rec(w, m.name))
    ensures var x := w.names[m.name];
            var y := ReconcileL(w, m, x, Rec(w, m.name));
            LocalOk(y, w.b.ledger) && StoredStep(x, y) && (!m.Patch? ==> Finalized(x, y))
  {
    hide WorldOk, LocalOk, StoredStep, Finalized, Stored, ReadL, LostL, WatchL, LookUpL, CheckL, PatchL, WriteL, AnswerL, Arrived;
    LocalAt(w, m.name);
    var x := w.names[m.name];
    var b := w.b.ledger;
    var y := ReconcileL(w, m, x, x.rec.value);
    RecStored(w, x, x.rec.value, m.Read? && m.poolDeleting);
    match m
    case Read(_, flag) => ReadOk(x, flag, b); SameStored(x, y);
    case Answer(_) => AnswerOk(w, m.name); SameStored(x, y);
    case Lost(_) => LostOk(x, b); SameStored(x, y);
    case Watch(_) => BoundStepOk(x, w.deleted, w.recovered, w.b.now, b); SameStored(x, y);
    case LookUp(_) => BoundStepOk(x, w.deleted, w.recovered, w.b.now, b); SameStored(x, y);
    case Check(_) => BoundStepOk(x, w.deleted, w.recovered, w.b.now, b); SameStored(x, y);
    case Patch(_) => PatchOk(x, b); PatchStored(x, x.rec.value);
    case Write(_) => WriteOk(x, b); WriteStored(x, b);
  }

  lemma NextOk(w: World, m: Move)
    requires WorldOk(w) && IsLocal(m) && CanLocal(w, m)
    ensures LocalOk(NextL(w, m), w.b.ledger) && StoredStep(w.names[m.name], NextL(w, m))
    ensures !m.Patch? ==> Finalized(w.names[m.name], NextL(w, m))
  {
    hide WorldOk, LocalOk, StoredStep, Finalized, Stored, DeleteL, RenewL, FinalizerL, SeeL, BeginL, ReconcileL, Over, CanStep;
    LocalAt(w, m.name);
    var x := w.names[m.name];
    var b := w.b.ledger;
    match m
    case Delete(_) => EditOk(x, b, 0, "", false); EditStored(x, 0, "", false);
    case Renew(_, t) => EditOk(x, b, t, "", false); EditStored(x, t, "", false);
    case SetFinalizer(_, f, on) => EditOk(x, b, 0, f, on); EditStored(x, 0, f, on);
    case See(_) => SeeOk(x, b); SeeStored(x);
    case Begin(_) => BeginOk(x, b); SeeStored(x);
    case GiveUp(_) => OverOk(x, b); SeeStored(x);
    case _ => ReconcileOk(w, m);
  }

  lemma LocalDo(w: World, m: Move, v: World)
    requires Moved(w, m, v) && IsLocal(m)
    ensures CanLocal(w, m) && m.name in w.names && v == SetName(w, m.name, NextL(w, m)).(recovered := RecoveredAfter(w, m))
  {
    hide NextL, RecoveredAfter, Next, CanStep;
  }

  lemma BatteryOk(w: World, m: Move, v: World)
    requires WorldOk(w) && Moved(w, m, v)
    ensures WorldOk(w.(b := v.b))
    ensures Inv(w.b) && Grows(w.b, v.b)
  {
    hide Inv, LocalOk, Next, Can, Effect, Grows, StepOf;
    var step := StepOf(w, m);
    if step.Some? {
      StepInv(w.b, step.value, v.b);
      StepGrows(w.b, step.value, v.b);
    } else {
      GrowsRefl(w.b);
    }
    GrowsLedger(w.b, v.b);
    forall n | n in w.names ensures LocalOk(w.names[n], v.b.ledger) {
      LedgerOn(w.names[n], w.b.ledger, v.b.ledger);
    }
  }

  lemma GrowsLedger(s: State, t: State)
    requires Grows(s, t)
    ensures LedgerGrows(s.ledger, t.ledger)
  {
  }

  lemma CalledOk(w: World, m: Move, v: World, ledger: map<string, Entry>)
    requires Moved(w, m, v) && IsCall(m) && m.name in w.names && LocalOk(w.names[m.name], ledger)
    ensures LocalOk(CalledL(w, m), ledger) && StoredStep(w.names[m.name], CalledL(w, m))
  {
    hide ViewOk, ClaimOk, Holds, HeartbeatS, MaySelect, Runs, Effect;
    SameStored(w.names[m.name], CalledL(w, m));
  }

  lemma CalledDo(w: World, m: Move, v: World)
    requires Moved(w, m, v) && IsCall(m)
    ensures Running(w, m.name) && v == SetName(w.(b := v.b), m.name, CalledL(w, m)).(lapsed := LapsedAfter(w, m))
  {
    hide Runs, CalledL, LapsedAfter, MaySelect, NewRpc;
  }

  lemma CallOk(w: World, m: Move, v: World)
    requires WorldOk(w) && Moved(w, m, v) && IsCall(m)
    ensures WorldOk(v)
  {
    hide Inv, NamesOk, UidsGiven, LocalOk, StoredStep, CalledL, Moved, Grows;
    BatteryOk(w, m, v);
    CalledDo(w, m, v);
    var u := w.(b := v.b);
    LocalAt(u, m.name);
    CalledOk(w, m, v, u.b.ledger);
    SetNameOk(u, m.name, CalledL(w, m));
  }

  lemma CreateOk(w: World, n: Name, c: Claim)
    requires WorldOk(w) && Creatable(w, n, c)
    ensures WorldOk(CreateW(w, n, c))
  {
    hide Inv;
    var x := if n in w.names then w.names[n] else Local([Version(0, None)], None);
    assert LocalOk(x, w.b.ledger);
    OutsideOk(x, Some(c), w.b.ledger);
  }

  lemma CrashOk(w: World)
    requires WorldOk(w)
    ensures NamesOk(Restarted(w.names), w.b.ledger) && UidsGiven(Restarted(w.names), w.uids)
  {
    hide Inv, LocalOk;
    forall n | n in w.names ensures LocalOk(Over(w.names[n]), w.b.ledger) {
      OverOk(w.names[n], w.b.ledger);
    }
  }

  lemma OtherOk(w: World, m: Move, v: World)
    requires WorldOk(w) && Moved(w, m, v) && !IsLocal(m) && !IsCall(m)
    ensures WorldOk(v)
  {
    hide Inv, NamesOk, UidsGiven, Grows, Next, CreateW;
    BatteryOk(w, m, v);
    if m.Create? {
      CreateOk(w, m.name, m.claim);
    } else if m.Crash? {
      CrashOk(w);
    }
  }

  /** Every move keeps the invariant. */
  lemma MoveOk(w: World, m: Move, v: World)
    requires WorldOk(w) && Moved(w, m, v)
    ensures WorldOk(v)
  {
    hide Inv, NamesOk, UidsGiven, StoredStep, LocalOk, Moved, CanLocal, NextL;
    if IsLocal(m) {
      LocalDo(w, m, v);
      NextOk(w, m);
      SetNameOk(w, m.name, NextL(w, m));
    } else if IsCall(m) {
      CallOk(w, m, v);
    } else {
      OtherOk(w, m, v);
    }
  }

  lemma {:induction false} CourseOk(worlds: seq<World>, moves: seq<Move>, placement: Placement, i: nat)
    requires Course(worlds, moves) && worlds[0] == Start0(placement) && i < |worlds|
    ensures WorldOk(worlds[i])
  {
    hide WorldOk, Moved;
    if i == 0 {
      StartOk(placement);
    } else {
      assert MovedAt(worlds, moves, i - 1);
      CourseOk(worlds, moves, placement, i - 1);
      MoveOk(worlds[i - 1], moves[i - 1], worlds[i]);
    }
  }

  lemma StartOk(placement: Placement)
    ensures WorldOk(Start0(placement))
  {
    hide Inv;
    InitInv(placement);
  }
}
