/** When a claim is Expired, and what its recorded expiry means. */
module WorldSound {
  import opened BatteryTypes
  import opened BatterySections
  import opened BatteryInvariant
  import opened BatteryHistory
  import opened BatteryTheorems
  import opened BatteryOrder
  import opened BatteryExpiry
  import opened BatteryLeases
  import opened Claim
  import opened ExecAgent
  import opened World
  import opened WorldInvariant
  import opened WorldRuns
  import opened WorldTheorems

  type Ledger = map<string, Entry>

  /** The expiry was battery's own for the Lease when it was read, so it is no later than the last. */
  predicate NotLate(expires: Option<Time>, l: string, ledger: Ledger, steady: bool) {
    expires.Some? ==> l in ledger && (steady ==> expires.value <= ledger[l].lease.expiresAt)
  }

  /** What may have expired a claim whose Lease battery still holds: it had run out, or its MicroVM was reported deleted. */
  datatype Causes = Causes(lapsed: set<string>, log: seq<Event>)

  function CausesOf(w: World): Causes {
    Causes(w.lapsed, w.b.log)
  }

  predicate Within(p: Causes, q: Causes) {
    p.lapsed <= q.lapsed && p.log <= q.log
  }

  ghost predicate Sound(c: Claim, ledger: Ledger, past: Causes, steady: bool) {
    && (c.status.phase == Expired ==> HasEnded(ledger, c.status.lease) || c.status.lease in past.lapsed || Reported(past.log, c.status.vm))
    && NotLate(c.status.expires, c.status.lease, ledger, steady)
  }

  /** What battery said of a Lease: its expiry, or that it does not hold it. */
  predicate Truth(answer: Option<Time>, l: string, ledger: Ledger, steady: bool) {
    NotLate(answer, l, ledger, steady) && (answer.None? ==> HasEnded(ledger, l))
  }

  ghost predicate RecSound(r: Reconcile, ledger: Ledger, past: Causes, now: Time, steady: bool) {
    && Sound(r.orig, ledger, past, steady) && Sound(r.obj, ledger, past, steady)
    && match r.pc
       case Renewed(answer) => Truth(answer, r.obj.status.lease, ledger, steady)
       case Checking => !PendingRenewal(r.obj)
       case Listing(at) => !PendingRenewal(r.obj) && at <= now
       case Listed(at, answer) =>
         && !PendingRenewal(r.obj) && Truth(answer, r.obj.status.lease, ledger, steady)
         && (answer.Some? && answer.value <= at ==> r.obj.status.lease in past.lapsed)
       case _ => true
  }

  ghost predicate LocalSound(x: Local, ledger: Ledger, past: Causes, now: Time, steady: bool) {
    && (forall i | 0 <= i < |x.view| && x.view[i].obj.Some? :: Sound(x.view[i].obj.value, ledger, past, steady))
    && (x.rec.Some? ==> RecSound(x.rec.value, ledger, past, now, steady))
  }

  ghost predicate FoundSound(found: map<string, Option<Time>>, ledger: Ledger, steady: bool) {
    forall l | l in found :: Truth(found[l], l, ledger, steady)
  }

  ghost predicate RecoverySound(w: World, steady: bool) {
    && (w.recovery.Recorded? ==> forall l | l in w.recovery.ids :: l in w.b.ledger)
    && (w.recovery.Found? ==> FoundSound(w.recovery.leases, w.b.ledger, steady))
    && FoundSound(w.recovered, w.b.ledger, steady)
  }

  ghost predicate DeletedSound(deleted: set<string>, log: seq<Event>) {
    forall u | u in deleted :: Reported(log, u)
  }

  ghost predicate NamesSound(names: map<Name, Local>, ledger: Ledger, past: Causes, now: Time, steady: bool) {
    forall n | n in names :: LocalSound(names[n], ledger, past, now, steady)
  }

  ghost predicate BatterySound(s: State, steady: bool) {
    Inv(s) && Honest(s, false, steady)
  }

  ghost predicate WorldSound(w: World, steady: bool) {
    && WorldOk(w) && BatterySound(w.b, steady)
    && NamesSound(w.names, w.b.ledger, CausesOf(w), w.b.now, steady)
    && RecoverySound(w, steady) && DeletedSound(w.deleted, w.b.log)
  }

  // ----- Battery goes on -----

  /** Ended Leases stay ended, and expiries move on if thresholds are steady. */
  ghost predicate LedgerOns(a: Ledger, b: Ledger, steady: bool) {
    LedgerGrows(a, b) && (steady ==> Extends(a, b))
  }

  lemma SoundOn(c: Claim, a: Ledger, b: Ledger, p: Causes, q: Causes, steady: bool)
    requires Sound(c, a, p, steady) && LedgerOns(a, b, steady) && Within(p, q)
    ensures Sound(c, b, q, steady)
  {
    hide Reported;
    ReportedOn(p.log, q.log, c.status.vm);
  }

  lemma LocalOn(x: Local, a: Ledger, b: Ledger, p: Causes, q: Causes, s: Time, t: Time, steady: bool)
    requires LocalSound(x, a, p, s, steady) && LedgerOns(a, b, steady) && Within(p, q) && s <= t
    ensures LocalSound(x, b, q, t, steady)
  {
    hide Sound;
    forall i | 0 <= i < |x.view| && x.view[i].obj.Some? ensures Sound(x.view[i].obj.value, b, q, steady) {
      SoundOn(x.view[i].obj.value, a, b, p, q, steady);
    }
    if x.rec.Some? {
      SoundOn(x.rec.value.orig, a, b, p, q, steady);
      SoundOn(x.rec.value.obj, a, b, p, q, steady);
    }
  }

  // ----- Within one name -----

  lemma StoreSound(x: Local, obj: Option<Claim>, ledger: Ledger, past: Causes, now: Time, steady: bool)
    requires LocalSound(x, ledger, past, now, steady) && (obj.Some? ==> Sound(obj.value, ledger, past, steady))
    ensures LocalSound(Store(x, obj), ledger, past, now, steady) && LocalSound(Over(Store(x, obj)), ledger, past, now, steady)
  {
    hide Sound;
  }

  lemma StoredSound(x: Local, ledger: Ledger, past: Causes, now: Time, steady: bool)
    requires LocalSound(x, ledger, past, now, steady) && Stored(x).Some?
    ensures Sound(Stored(x).value, ledger, past, steady)
  {
    hide Sound;
  }

  lemma EditSound(x: Local, t: Time, f: string, on: bool, ledger: Ledger, past: Causes, now: Time, steady: bool)
    requires LocalSound(x, ledger, past, now, steady)
    ensures LocalSound(DeleteL(x), ledger, past, now, steady) && LocalSound(RenewL(x, t), ledger, past, now, steady)
    ensures LocalSound(FinalizerL(x, f, on), ledger, past, now, steady)
  {
    hide LocalSound, Store;
    if Stored(x).Some? {
      StoredSound(x, ledger, past, now, steady);
      var c := Stored(x).value;
      StoreSound(x, Settle(c.(deleting := true)), ledger, past, now, steady);
      StoreSound(x, Some(c.(renew := Some(t))), ledger, past, now, steady);
      StoreSound(x, Some(c.(others := c.others + {f})), ledger, past, now, steady);
      StoreSound(x, Settle(c.(others := c.others - {f})), ledger, past, now, steady);
    }
  }

  lemma SeeSound(x: Local, ledger: Ledger, past: Causes, now: Time, steady: bool)
    requires LocalSound(x, ledger, past, now, steady)
    ensures LocalSound(SeeL(x), ledger, past, now, steady) && LocalSound(BeginL(x), ledger, past, now, steady) && LocalSound(Over(x), ledger, past, now, steady)
  {
    hide NotLate;
  }

  lemma ReadSound(x: Local, flag: bool, answer: Answer, ledger: Ledger, past: Causes, now: Time, steady: bool)
    requires LocalSound(x, ledger, past, now, steady) && x.rec.Some?
    ensures LocalSound(ReadL(x, x.rec.value, flag), ledger, past, now, steady)
    ensures LocalSound(ReleasedL(x, x.rec.value, answer), ledger, past, now, steady)
    ensures LocalSound(AnsweredL(x, x.rec.value, answer), ledger, past, now, steady)
    ensures LocalSound(LostL(x, x.rec.value), ledger, past, now, steady)
  {
  }

  lemma WatchSound(x: Local, deleted: set<string>, ledger: Ledger, past: Causes, now: Time, steady: bool)
    requires LocalSound(x, ledger, past, now, steady) && x.rec.Some?
    requires DeletedSound(deleted, past.log)
    ensures LocalSound(WatchL(x, x.rec.value, deleted), ledger, past, now, steady)
  {
  }

  lemma LookUpSound(x: Local, recovered: map<string, Option<Time>>, ledger: Ledger, past: Causes, now: Time, steady: bool)
    requires LocalSound(x, ledger, past, now, steady) && x.rec.Some? && FoundSound(recovered, ledger, steady)
    ensures LocalSound(LookUpL(x, x.rec.value, recovered), ledger, past, now, steady)
  {
  }

  lemma BoundSound(x: Local, ledger: Ledger, past: Causes, now: Time, steady: bool)
    requires LocalSound(x, ledger, past, now, steady) && x.rec.Some?
    ensures x.rec.value.pc.Renewed? ==> LocalSound(RenewedL(x, x.rec.value, x.rec.value.pc.answer), ledger, past, now, steady)
    ensures x.rec.value.pc.Listed? ==>
              LocalSound(ListedL(x, x.rec.value, x.rec.value.pc.now, x.rec.value.pc.answer), ledger, past, now, steady)
    ensures x.rec.value.pc.Checking? ==> LocalSound(CheckL(x, x.rec.value, now), ledger, past, now, steady)
  {
  }

  lemma PatchSound(x: Local, ledger: Ledger, past: Causes, now: Time, steady: bool)
    requires LocalSound(x, ledger, past, now, steady) && x.rec.Some?
    ensures LocalSound(PatchL(x, x.rec.value), ledger, past, now, steady)
  {
    hide Sound;
    if Stored(x).Some? {
      StoredSound(x, ledger, past, now, steady);
      var c := Stored(x).value.(release := x.rec.value.obj.release);
      SameStatus(Stored(x).value, c, ledger, past, steady);
      StoreSound(x, Settle(c), ledger, past, now, steady);
    }
  }

  lemma SameStatus(c: Claim, d: Claim, ledger: Ledger, past: Causes, steady: bool)
    requires Sound(c, ledger, past, steady) && d.status == c.status
    ensures Sound(d, ledger, past, steady)
  {
  }

  lemma MergeSound(c: Claim, r: Reconcile, ledger: Ledger, past: Causes, steady: bool)
    requires r.pc.Writing? && PcOk(r, Some(c), ledger) && ClaimOk(c, ledger) && ClaimOk(r.orig, ledger) && Later(r.orig, c)
    requires Sound(c, ledger, past, steady) && Sound(r.obj, ledger, past, steady)
    ensures Sound(c.(status := MergeStatus(c.status, r.orig.status, r.obj.status)), ledger, past, steady)
  {
  }

  lemma WriteSound(x: Local, ledger: Ledger, past: Causes, now: Time, steady: bool)
    requires LocalOk(x, ledger) && LocalSound(x, ledger, past, now, steady) && x.rec.Some? && x.rec.value.pc.Writing?
    ensures LocalSound(WriteL(x, x.rec.value), ledger, past, now, steady)
  {
    hide Later, MergeStatus, Sound, ClaimOk;
    var r := x.rec.value;
    if Stored(x).Some? {
      var c := Stored(x).value;
      StoredOk(x, ledger);
      StoredSound(x, ledger, past, now, steady);
      WriterAnchored(x, ledger);
      MergeSound(c, r, ledger, past, steady);
      StoreSound(x, Some(c.(status := MergeStatus(c.status, r.orig.status, r.obj.status))), ledger, past, now, steady);
    }
  }

  // ----- Every move -----

  /** Where expiries matter, no threshold is made shorter. */
  ghost predicate Sober(w: World, m: Move, steady: bool) {
    var step := StepOf(w, m);
    step.Some? && steady ==> Steady(w.b, step.value)
  }

  /** What battery's part of a move leaves true. */
  lemma BatteryOn(w: World, m: Move, v: World, steady: bool)
    requires WorldSound(w, steady) && Moved(w, m, v) && Sober(w, m, steady)
    ensures BatterySound(v.b, steady) && LedgerOns(w.b.ledger, v.b.ledger, steady) && w.b.now <= v.b.now && w.b.log <= v.b.log
  {
    hide WorldOk, NamesSound, RecoverySound, DeletedSound, Inv, Honest, Next, Can, Effect, Steady, Extends, LedgerGrows, StepOf;
    BatteryOk(w, m, v);
    var step := StepOf(w, m);
    if step.Some? {
      StepInv(w.b, step.value, v.b);
      StepKeeps(w.b, step.value, v.b, false, steady);
      KeptHonest(w.b, v.b, false, steady);
    } else {
      ExtendsRefl(w.b.ledger);
    }
  }

  lemma ExtendsRefl(a: Ledger)
    ensures Extends(a, a)
  {
  }

  lemma FoundOn(found: map<string, Option<Time>>, a: Ledger, b: Ledger, steady: bool)
    requires FoundSound(found, a, steady) && LedgerOns(a, b, steady)
    ensures FoundSound(found, b, steady)
  {
  }

  lemma DeletedOn(deleted: set<string>, a: seq<Event>, b: seq<Event>)
    requires DeletedSound(deleted, a) && a <= b
    ensures DeletedSound(deleted, b)
  {
    forall u | u in deleted ensures Reported(b, u) {
      ReportedOn(a, b, u);
    }
  }

  /** Battery's part alone. */
  lemma AdvanceSound(w: World, m: Move, v: World, steady: bool)
    requires WorldSound(w, steady) && Moved(w, m, v) && Sober(w, m, steady)
    ensures WorldSound(w.(b := v.b), steady)
  {
    hide WorldOk, LocalSound, BatterySound, LedgerOns, FoundSound, DeletedSound, Moved, Sober;
    BatteryOk(w, m, v);
    BatteryOn(w, m, v, steady);
    var t := v.b;
    forall n | n in w.names ensures LocalSound(w.names[n], t.ledger, Causes(w.lapsed, t.log), t.now, steady) {
      LocalOn(w.names[n], w.b.ledger, t.ledger, CausesOf(w), Causes(w.lapsed, t.log), w.b.now, t.now, steady);
    }
    FoundOn(w.recovered, w.b.ledger, t.ledger, steady);
    if w.recovery.Found? {
      FoundOn(w.recovery.leases, w.b.ledger, t.ledger, steady);
    }
    DeletedOn(w.deleted, w.b.log, t.log);
    LedgerKeys(w.b.ledger, t.ledger, steady);
  }

  lemma LedgerKeys(a: Ledger, b: Ledger, steady: bool)
    requires LedgerOns(a, b, steady)
    ensures forall l | l in a :: l in b
  {
  }

  lemma ReconcileSound(w: World, m: Move, steady: bool)
    requires WorldSound(w, steady) && IsStep(m) && Running(w, m.name) && CanStep(w, m, Rec(w, m.name))
    ensures LocalSound(ReconcileL(w, m, w.names[m.name], Rec(w, m.name)), w.b.ledger, CausesOf(w), w.b.now, steady)
  {
    hide WorldSound, LocalOk, LocalSound, Stored, ReadL, LostL, WatchL, LookUpL, CheckL, PatchL, WriteL, AnswerL, Arrived;
    SoundAt(w, m.name, steady);
    var x := w.names[m.name];
    var b, p, now := w.b.ledger, CausesOf(w), w.b.now;
    match m
    case Read(_, flag) => ReadSound(x, flag, Done, b, p, now, steady);
    case Answer(_) => AnswerSound(w, m.name, steady);
    case Lost(_) => ReadSound(x, false, Done, b, p, now, steady);
    case Watch(_) =>
      WatchSound(x, w.deleted, b, p, now, steady);
    case LookUp(_) => LookUpSound(x, w.recovered, b, p, now, steady);
    case Check(_) => BoundSound(x, b, p, now, steady);
    case Patch(_) => PatchSound(x, b, p, now, steady);
    case Write(_) => WriteSound(x, b, p, now, steady);
  }

  lemma AnswerSound(w: World, n: Name, steady: bool)
    requires WorldSound(w, steady) && Running(w, n) && Arrived(w, Rec(w, n))
    ensures LocalSound(AnswerL(w, w.names[n], Rec(w, n)), w.b.ledger, CausesOf(w), w.b.now, steady)
  {
    hide WorldSound, LocalOk, LocalSound, RenewedL, ListedL, AnsweredL, ReleasedL;
    SoundAt(w, n, steady);
    var x := w.names[n];
    var b, p, now := w.b.ledger, CausesOf(w), w.b.now;
    match x.rec.value.pc
    case ReleaseCalled(c) => ReadSound(x, false, w.b.answers[c].answer, b, p, now, steady);
    case Asked(c, _) => ReadSound(x, false, w.b.answers[c].answer, b, p, now, steady);
    case _ => BoundSound(x, b, p, now, steady);
  }

  lemma NextSound(w: World, m: Move, steady: bool)
    requires WorldSound(w, steady) && IsLocal(m) && CanLocal(w, m)
    ensures LocalSound(NextL(w, m), w.b.ledger, CausesOf(w), w.b.now, steady)
  {
    hide WorldSound, LocalOk, LocalSound, DeleteL, RenewL, FinalizerL, SeeL, BeginL, ReconcileL, Over, CanStep;
    SoundAt(w, m.name, steady);
    var x := w.names[m.name];
    var b, p, now := w.b.ledger, CausesOf(w), w.b.now;
    match m
    case Delete(_) => EditSound(x, 0, "", false, b, p, now, steady);
    case Renew(_, t) => EditSound(x, t, "", false, b, p, now, steady);
    case SetFinalizer(_, f, on) => EditSound(x, 0, f, on, b, p, now, steady);
    case See(_) => SeeSound(x, b, p, now, steady);
    case Begin(_) => SeeSound(x, b, p, now, steady);
    case GiveUp(_) => SeeSound(x, b, p, now, steady);
    case _ => ReconcileSound(w, m, steady);
  }

  lemma SoundAt(w: World, n: Name, steady: bool)
    requires WorldSound(w, steady) && n in w.names
    ensures LocalSound(w.names[n], w.b.ledger, CausesOf(w), w.b.now, steady) && LocalOk(w.names[n], w.b.ledger)
    ensures FoundSound(w.recovered, w.b.ledger, steady) && DeletedSound(w.deleted, w.b.log)
  {
    hide Inv, LocalSound, LocalOk, BatterySound;
  }

  lemma SetNameSound(w: World, n: Name, x: Local, recovered: map<string, Option<Time>>, steady: bool)
    requires WorldSound(w, steady) && WorldOk(SetName(w, n, x)) && LocalSound(x, w.b.ledger, CausesOf(w), w.b.now, steady)
    requires forall l | l in recovered :: l in w.recovered && recovered[l] == w.recovered[l]
    ensures WorldSound(SetName(w, n, x).(recovered := recovered), steady)
  {
    hide Inv, LocalSound, LocalOk, BatterySound, Truth;
  }

  lemma LocalMoveSound(w: World, m: Move, v: World, steady: bool)
    requires WorldSound(w, steady) && Moved(w, m, v) && IsLocal(m)
    ensures WorldSound(v, steady)
  {
    hide WorldSound, WorldOk, LocalSound, LocalOk, StoredStep, Moved, NextL;
    SoundIsOk(w, steady);
    LocalDo(w, m, v);
    NextOk(w, m);
    SetNameOk(w, m.name, NextL(w, m));
    NextSound(w, m, steady);
    SetNameSound(w, m.name, NextL(w, m), RecoveredAfter(w, m), steady);
  }

  lemma SoundIsOk(w: World, steady: bool)
    requires WorldSound(w, steady)
    ensures WorldOk(w) && Inv(w.b)
  {
    hide Inv;
  }

  /** What battery answers about a Lease that was granted is true. */
  lemma AnswerTruth(s: State, l: string, pool: PoolKey, steady: bool)
    requires Inv(s) && l in s.ledger
    ensures Truth(ExpiryIn(s.leases, l), l, s.ledger, steady)
    ensures s.ledger[l].lease.pool == pool ==> Truth(ExpiryInPool(s.leases, l, pool), l, s.ledger, steady)
  {
    hide Inv;
    HeldFacts(s);
    Closed(s);
  }

  /** A call whose answer is awaited. */
  lemma AskedSound(w: World, m: Move, ledger: Ledger, log: seq<Event>, now: Time, steady: bool)
    requires Calling(w, m) && (m.CallRelease? || m.CallClaim?)
    requires LocalSound(w.names[m.name], ledger, Causes(w.lapsed, log), now, steady)
    ensures LocalSound(CalledL(w, m), ledger, Causes(LapsedAfter(w, m), log), now, steady)
  {
    hide Sound, Truth;
  }

  /** A call that battery has answered. */
  lemma ToldSound(w: World, m: Move, v: State, steady: bool)
    requires Calling(w, m) && (m.CallHeartbeat? || m.CallList?)
    requires v == if m.CallHeartbeat? then HeartbeatS(w.b, Rec(w, m.name).obj.status.lease) else w.b
    requires Inv(v) && LocalOk(w.names[m.name], v.ledger) && LocalSound(w.names[m.name], v.ledger, Causes(w.lapsed, v.log), v.now, steady)
    ensures LocalSound(CalledL(w, m), v.ledger, Causes(LapsedAfter(w, m), v.log), v.now, steady)
  {
    hide Inv, ViewOk, Holds, HeartbeatS, Sound, Truth;
    var x := w.names[m.name];
    var r := Rec(w, m.name);
    SameLedger(v.ledger, steady);
    LocalOn(x, v.ledger, v.ledger, Causes(w.lapsed, v.log), Causes(LapsedAfter(w, m), v.log), v.now, v.now, steady);
    AtBound(x, v.ledger);
    AnswerTruth(v, r.obj.status.lease, r.obj.pool, steady);
  }

  /** The reconcile is where it makes the call. */
  predicate Calling(w: World, m: Move) {
    && IsCall(m) && Running(w, m.name)
    && (m.CallClaim? ==> Rec(w, m.name).pc.Asking?)
    && (m.CallHeartbeat? ==> Rec(w, m.name).pc.Renewing?)
    && (m.CallList? ==> Rec(w, m.name).pc.Listing?)
  }

  lemma MayCall(w: World, m: Move, v: World)
    requires Moved(w, m, v) && IsCall(m)
    ensures Calling(w, m)
  {
    hide Effect, Runs, MaySelect, NewRpc;
  }

  lemma CalledSound(w: World, m: Move, v: World, steady: bool)
    requires Moved(w, m, v) && IsCall(m) && m.name in w.names
    requires Inv(v.b) && LocalOk(w.names[m.name], v.b.ledger) && LocalSound(w.names[m.name], v.b.ledger, Causes(w.lapsed, v.b.log), v.b.now, steady)
    ensures LocalSound(CalledL(w, m), v.b.ledger, Causes(LapsedAfter(w, m), v.b.log), v.b.now, steady)
  {
    hide Inv, LocalOk, LocalSound, HeartbeatS, CalledL, LapsedAfter, Moved;
    MayCall(w, m, v);
    if m.CallHeartbeat? || m.CallList? {
      CalledBattery(w, m, v);
      ToldSound(w, m, v.b, steady);
    } else {
      AskedSound(w, m, v.b.ledger, v.b.log, v.b.now, steady);
    }
  }

  lemma CalledBattery(w: World, m: Move, v: World)
    requires Moved(w, m, v) && (m.CallHeartbeat? || m.CallList?)
    ensures Running(w, m.name)
    ensures v.b == if m.CallHeartbeat? then HeartbeatS(w.b, Rec(w, m.name).obj.status.lease) else w.b
  {
    hide HeartbeatS, Effect;
    hide MayAdmin, DoAdmin, MayRoutine, DoRoutine, MayTick, DoTick;
  }

  lemma SameLedger(a: Ledger, steady: bool)
    ensures LedgerOns(a, a, steady)
  {
  }

  lemma CallMoveSound(w: World, m: Move, v: World, steady: bool)
    requires WorldSound(w, steady) && Moved(w, m, v) && Sober(w, m, steady) && IsCall(m)
    ensures WorldSound(v, steady)
  {
    hide WorldSound, WorldOk, LocalSound, LocalOk, CalledL, Inv, Sober, Moved;
    SoundIsOk(w, steady);
    AdvanceSound(w, m, v, steady);
    var u := w.(b := v.b);
    SoundIsOk(u, steady);
    CalledDo(w, m, v);
    SoundAt(u, m.name, steady);
    CallOk(w, m, v);
    CalledSound(w, m, v, steady);
    MoreLapsed(u, m.name, CalledL(w, m), LapsedAfter(w, m), steady);
  }

  lemma MoreLapsed(w: World, n: Name, x: Local, lapsed: set<string>, steady: bool)
    requires WorldSound(w, steady) && w.lapsed <= lapsed && WorldOk(SetName(w, n, x).(lapsed := lapsed))
    requires LocalSound(x, w.b.ledger, Causes(lapsed, w.b.log), w.b.now, steady)
    ensures WorldSound(SetName(w, n, x).(lapsed := lapsed), steady)
  {
    hide WorldOk, LocalSound, BatterySound, Truth;
    SameLedger(w.b.ledger, steady);
    forall k | k in w.names ensures LocalSound(w.names[k], w.b.ledger, Causes(lapsed, w.b.log), w.b.now, steady) {
      LocalOn(w.names[k], w.b.ledger, w.b.ledger, CausesOf(w), Causes(lapsed, w.b.log), w.b.now, w.b.now, steady);
    }
  }

  lemma CreateSound(w: World, n: Name, c: Claim, steady: bool)
    requires WorldSound(w, steady) && Creatable(w, n, c)
    ensures WorldSound(CreateW(w, n, c), steady)
  {
    hide Inv, LocalOk, BatterySound, Truth;
    CreateOk(w, n, c);
    var x := if n in w.names then w.names[n] else Local([Version(0, None)], None);
    assert LocalSound(x, w.b.ledger, CausesOf(w), w.b.now, steady);
    StoreSound(x, Some(c), w.b.ledger, CausesOf(w), w.b.now, steady);
  }

  lemma CrashSound(w: World, steady: bool)
    requires WorldSound(w, steady)
    ensures NamesSound(Restarted(w.names), w.b.ledger, CausesOf(w), w.b.now, steady)
  {
    hide Inv, LocalOk, LocalSound, BatterySound;
    forall n | n in w.names ensures LocalSound(Over(w.names[n]), w.b.ledger, CausesOf(w), w.b.now, steady) {
      SeeSound(w.names[n], w.b.ledger, CausesOf(w), w.b.now, steady);
    }
  }

  /** The Leases that recovery asks about were granted before it asks. */
  lemma RecordedGranted(w: World)
    requires WorldOk(w)
    ensures forall l | l in CachedLeases(w.names) :: l in w.b.ledger
  {
    hide Inv, Holds;
    forall n | n in w.names && Cached(w.names[n]).Some? && HoldsLease(Cached(w.names[n]).value)
      ensures Cached(w.names[n]).value.status.lease in w.b.ledger
    {
      LocalAt(w, n);
      assert ClaimOk(w.names[n].view[0].obj.value, w.b.ledger);
    }
  }

  lemma FoundTruth(s: State, ids: set<string>, steady: bool)
    requires Inv(s) && forall l | l in ids :: l in s.ledger
    ensures FoundSound(map l | l in ids :: ExpiryIn(s.leases, l), s.ledger, steady)
  {
    hide Inv, Truth;
    forall l | l in ids ensures Truth(ExpiryIn(s.leases, l), l, s.ledger, steady) {
      AnswerTruth(s, l, s.ledger[l].lease.pool, steady);
    }
  }

  lemma MemorySound(w: World, m: Move, steady: bool)
    requires WorldSound(w, steady) && !IsLocal(m) && !IsCall(m) && CanOther(w, m) && !m.Create? && WorldOk(OtherW(w, m))
    ensures WorldSound(OtherW(w, m), steady)
  {
    hide Inv, BatterySound, NamesSound, FoundSound, Reported, WorldOk, LocalOk;
    SoundIsOk(w, steady);
    match m
    case Crash =>
      CrashSound(w, steady);
      Empty(w.b.ledger, steady);
    case ListClaims => RecordedGranted(w);
    case ListLeases => FoundTruth(w.b, w.recovery.ids, steady);
    case Record =>
    case Report(i) => ReportedNow(w.b.log, i);
    case Prune(_) =>
    case Battery(_) =>
  }

  lemma OtherSound(w: World, m: Move, v: World, steady: bool)
    requires WorldSound(w, steady) && Moved(w, m, v) && Sober(w, m, steady) && !IsLocal(m) && !IsCall(m)
    ensures WorldSound(v, steady)
  {
    hide WorldSound, WorldOk, Sober, Next, CreateW, Creatable;
    SoundIsOk(w, steady);
    MoveOk(w, m, v);
    if m.Battery? {
      AdvanceSound(w, m, v, steady);
    } else if m.Create? {
      CreateSound(w, m.name, m.claim, steady);
    } else {
      MemorySound(w, m, steady);
    }
  }

  lemma Empty(ledger: Ledger, steady: bool)
    ensures FoundSound(map[], ledger, steady)
  {
  }

  lemma ReportedNow(log: seq<Event>, i: nat)
    requires i < |log| && ReportsDeletion(log[i])
    ensures Reported(log, log[i].vm)
  {
  }

  /** Every move keeps what claims say about their Leases true. */
  lemma MoveSound(w: World, m: Move, v: World, steady: bool)
    requires WorldSound(w, steady) && Moved(w, m, v) && Sober(w, m, steady)
    ensures WorldSound(v, steady)
  {
    hide WorldSound, Moved, Sober;
    if IsLocal(m) {
      LocalMoveSound(w, m, v, steady);
    } else if IsCall(m) {
      CallMoveSound(w, m, v, steady);
    } else {
      OtherSound(w, m, v, steady);
    }
  }

  // ----- Over every course -----

  ghost predicate SoberCourse(worlds: seq<World>, moves: seq<Move>, steady: bool) {
    Course(worlds, moves) && forall i | 0 <= i < |moves| :: Sober(worlds[i], moves[i], steady)
  }

  lemma {:induction false} CourseSound(worlds: seq<World>, moves: seq<Move>, placement: Placement, i: nat, steady: bool)
    requires SoberCourse(worlds, moves, steady) && worlds[0] == Start0(placement) && i < |worlds|
    ensures WorldSound(worlds[i], steady)
  {
    hide WorldSound, Moved, Sober;
    if i == 0 {
      StartSound(placement, steady);
    } else {
      assert MovedAt(worlds, moves, i - 1);
      CourseSound(worlds, moves, placement, i - 1, steady);
      MoveSound(worlds[i - 1], moves[i - 1], worlds[i], steady);
    }
  }

  lemma StartSound(placement: Placement, steady: bool)
    ensures WorldSound(Start0(placement), steady)
  {
    hide Inv, Honest;
    InitInv(placement);
    InitHonest(placement, false, steady);
  }

  /** Battery's own expiry of the Lease had passed when a reconcile read it, with no renewal of its copy left to relay. */
  ghost predicate Lapses(w: World, m: Move, l: string) {
    && m.CallList? && Running(w, m.name) && Rec(w, m.name).obj.status.lease == l && !PendingRenewal(Rec(w, m.name).obj)
    && l in w.b.leases && w.b.leases[l].expiresAt <= w.b.now
  }

  lemma LapsedNow(w: World, m: Move, v: World, l: string, steady: bool)
    requires WorldSound(w, steady) && Moved(w, m, v) && l in v.lapsed && l !in w.lapsed
    ensures Lapses(w, m, l)
  {
    hide WorldOk, BatterySound, RecoverySound, DeletedSound, Sound, Moved;
    OnlyListing(w, m, v);
    assert LocalSound(w.names[m.name], w.b.ledger, CausesOf(w), w.b.now, steady);
  }

  lemma OnlyListing(w: World, m: Move, v: World)
    requires Moved(w, m, v) && v.lapsed != w.lapsed
    ensures m.CallList? && Running(w, m.name) && Rec(w, m.name).pc.Listing?
    ensures var r := Rec(w, m.name);
            var l := r.obj.status.lease;
            l in w.b.leases && w.b.leases[l].expiresAt <= r.pc.now && v.lapsed == w.lapsed + {l}
  {
    hide Runs, CalledL, MaySelect, NextL, RecoveredAfter, CanLocal;
  }

  lemma {:induction false} LapsedBefore(worlds: seq<World>, moves: seq<Move>, placement: Placement, i: nat, l: string, steady: bool)
    requires SoberCourse(worlds, moves, steady) && worlds[0] == Start0(placement) && i < |worlds| && l in worlds[i].lapsed
    ensures exists k :: 0 <= k < i && Lapses(worlds[k], moves[k], l)
  {
    hide WorldSound, Moved, Sober, Lapses;
    if l in worlds[i - 1].lapsed {
      LapsedBefore(worlds, moves, placement, i - 1, l, steady);
    } else {
      assert MovedAt(worlds, moves, i - 1);
      CourseSound(worlds, moves, placement, i - 1, steady);
      LapsedNow(worlds[i - 1], moves[i - 1], worlds[i], l, steady);
    }
  }

  /**
   * Over every course, a claim is stored Expired only if battery does not hold its Lease and never will again, or
   * battery's own expiry of it had passed when a reconcile whose copy had no renewal left to relay read it, or battery had
   * reported the deletion of its MicroVM.
   */
  lemma ExpiredIsCaused(worlds: seq<World>, moves: seq<Move>, placement: Placement, i: nat, j: nat, n: Name, c: Claim)
    requires Course(worlds, moves) && worlds[0] == Start0(placement) && i <= j < |worlds|
    requires Holding(worlds[i], n, c) && c.status.phase == Expired
    ensures || c.status.lease !in worlds[j].b.leases
            || (exists k :: 0 <= k < i && Lapses(worlds[k], moves[k], c.status.lease))
            || Reported(worlds[i].b.log, c.status.vm)
  {
    hide WorldSound, WorldOk, Moved, Lapses, Inv, Grows, Reported;
    CourseSound(worlds, moves, placement, i, false);
    HeldSound(worlds[i], n, c, false);
    if c.status.lease in worlds[i].lapsed {
      LapsedBefore(worlds, moves, placement, i, c.status.lease, false);
    } else if HasEnded(worlds[i].b.ledger, c.status.lease) {
      CourseOk(worlds, moves, placement, j);
      CourseGrows(worlds, moves, placement, i, j);
      GrowsLedger(worlds[i].b, worlds[j].b);
      BatteryAt(worlds[j]);
      EndedStays(worlds[j].b, c.status.lease);
    }
  }

  // ----- What a reported deletion means -----

  /** The move grants the Lease to a claim whose MicroVM was reported deleted while its hooks ran. */
  ghost predicate GrantsLate(w: World, m: Move, l: string) {
    StepOf(w, m).Some? && GrantsReported(w.b, StepOf(w, m).value) && StepOf(w, m).value.lease == l
  }

  lemma MoveHeldReported(w: World, m: Move, v: World, l: string)
    requires Inv(w.b) && Moved(w, m, v) && l in v.b.leases && Reported(v.b.log, v.b.leases[l].vm)
    ensures GrantsLate(w, m, l) || (l in w.b.leases && Reported(w.b.log, w.b.leases[l].vm))
  {
    hide Inv, Next, Can, Effect, StepOf, Reported, GrantsReported;
    if StepOf(w, m).Some? {
      HeldReported(w.b, StepOf(w, m).value, v.b, l);
    }
  }

  lemma {:induction false} HeldWasLate(worlds: seq<World>, moves: seq<Move>, placement: Placement, j: nat, l: string)
    requires Course(worlds, moves) && worlds[0] == Start0(placement) && j < |worlds|
    requires l in worlds[j].b.leases && Reported(worlds[j].b.log, worlds[j].b.leases[l].vm)
    ensures exists k :: 0 <= k < j && GrantsLate(worlds[k], moves[k], l)
  {
    hide Moved, Inv, WorldOk, GrantsLate, Reported;
    if j > 0 {
      assert MovedAt(worlds, moves, j - 1);
      CourseOk(worlds, moves, placement, j - 1);
      BatteryAt(worlds[j - 1]);
      MoveHeldReported(worlds[j - 1], moves[j - 1], worlds[j], l);
      if !GrantsLate(worlds[j - 1], moves[j - 1], l) {
        HeldWasLate(worlds, moves, placement, j - 1, l);
      }
    }
  }

  /**
   * Over every course, a claim is stored Expired only if battery does not hold its Lease and never will again, or
   * battery's own expiry of it had passed when a reconcile whose copy had no renewal left to relay read it, or battery
   * granted it on a MicroVM whose deletion it had reported while the claim's hooks ran.
   */
  lemma ExpiredIsSound(worlds: seq<World>, moves: seq<Move>, placement: Placement, i: nat, j: nat, n: Name, c: Claim)
    requires Course(worlds, moves) && worlds[0] == Start0(placement) && i <= j < |worlds|
    requires Holding(worlds[i], n, c) && c.status.phase == Expired
    ensures || c.status.lease !in worlds[j].b.leases
            || (exists k :: 0 <= k < i && Lapses(worlds[k], moves[k], c.status.lease))
            || (exists k :: 0 <= k < j && GrantsLate(worlds[k], moves[k], c.status.lease))
  {
    hide WorldSound, WorldOk, Moved, Lapses, GrantsLate, Inv, Reported;
    ExpiredIsCaused(worlds, moves, placement, i, j, n, c);
    if c.status.lease in worlds[j].b.leases && Reported(worlds[i].b.log, c.status.vm) {
      CourseOk(worlds, moves, placement, j);
      BatteryAt(worlds[j]);
      CourseGrows(worlds, moves, placement, i, j);
      CourseSound(worlds, moves, placement, i, false);
      HeldSound(worlds[i], n, c, false);
      ReportedOn(worlds[i].b.log, worlds[j].b.log, c.status.vm);
      HeldFacts(worlds[j].b);
      HeldWasLate(worlds, moves, placement, j, c.status.lease);
    }
  }

  /** No Pool is created over tracked MicroVMs of its key. */
  ghost predicate CleanCourse(worlds: seq<World>, moves: seq<Move>) {
    && Course(worlds, moves)
    && forall i | 0 <= i < |moves| && StepOf(worlds[i], moves[i]).Some? :: Clean(worlds[i].b, StepOf(worlds[i], moves[i]).value)
  }

  lemma MoveReports(w: World, m: Move, v: World)
    requires Inv(w.b) && Tidy(w.b.vms, w.b.calls, w.b.pools) && ReportsOk(w.b) && Moved(w, m, v)
    requires StepOf(w, m).Some? ==> Clean(w.b, StepOf(w, m).value)
    ensures Tidy(v.b.vms, v.b.calls, v.b.pools) && ReportsOk(v.b)
  {
    hide Inv, Tidy, ReportsOk, Next, Can, Effect, Clean, StepOf;
    var step := StepOf(w, m);
    if step.Some? {
      StepOrder(w.b, step.value, v.b);
      StepKeeps(w.b, step.value, v.b, true, false);
    }
  }

  lemma {:induction false} CourseReports(worlds: seq<World>, moves: seq<Move>, placement: Placement, i: nat)
    requires CleanCourse(worlds, moves) && worlds[0] == Start0(placement) && i < |worlds|
    ensures Tidy(worlds[i].b.vms, worlds[i].b.calls, worlds[i].b.pools) && ReportsOk(worlds[i].b)
  {
    hide Moved, Inv, Tidy, ReportsOk, Clean, StepOf, WorldOk;
    if i == 0 {
      InitTidy(placement);
      InitHonest(placement, true, false);
    } else {
      assert MovedAt(worlds, moves, i - 1);
      CourseReports(worlds, moves, placement, i - 1);
      CourseOk(worlds, moves, placement, i - 1);
      BatteryAt(worlds[i - 1]);
      MoveReports(worlds[i - 1], moves[i - 1], worlds[i]);
    }
  }

  /** Where no Pool is created over tracked MicroVMs of its key, there is no such grant. */
  lemma CleanExpiredIsSound(worlds: seq<World>, moves: seq<Move>, placement: Placement, i: nat, j: nat, n: Name, c: Claim)
    requires CleanCourse(worlds, moves) && worlds[0] == Start0(placement) && i <= j < |worlds|
    requires Holding(worlds[i], n, c) && c.status.phase == Expired
    ensures c.status.lease !in worlds[j].b.leases || exists k :: 0 <= k < i && Lapses(worlds[k], moves[k], c.status.lease)
  {
    hide WorldOk, Moved, Lapses, Inv, ReportsOk, Clean, StepOf, Tidy, GrantsReported;
    ExpiredIsSound(worlds, moves, placement, i, j, n, c);
    forall k | 0 <= k < j ensures !GrantsLate(worlds[k], moves[k], c.status.lease) {
      CourseReports(worlds, moves, placement, k);
      CourseOk(worlds, moves, placement, k);
      BatteryAt(worlds[k]);
      if StepOf(worlds[k], moves[k]).Some? {
        GoneUngranted(worlds[k].b, StepOf(worlds[k], moves[k]).value);
      }
    }
  }

  lemma HeldSound(w: World, n: Name, c: Claim, steady: bool)
    requires WorldSound(w, steady) && Holding(w, n, c)
    ensures Sound(c, w.b.ledger, CausesOf(w), steady) && ClaimOk(c, w.b.ledger) && Inv(w.b)
  {
    hide Inv, ClaimOk, Sound, NotLate;
    SoundIsOk(w, steady);
    SoundAt(w, n, steady);
    HeldOk(w, n, c);
    StoredSound(w.names[n], w.b.ledger, CausesOf(w), w.b.now, steady);
  }

  /** A stored expiry is never later than battery's own while battery holds the Lease. */
  lemma ExpiryNeverOverstated(worlds: seq<World>, moves: seq<Move>, placement: Placement, i: nat, n: Name, c: Claim)
    requires SoberCourse(worlds, moves, true) && worlds[0] == Start0(placement) && i < |worlds|
    requires Holding(worlds[i], n, c) && c.status.expires.Some? && c.status.lease in worlds[i].b.leases
    ensures c.status.expires.value <= worlds[i].b.leases[c.status.lease].expiresAt
  {
    hide WorldSound, Course, Sober, Inv;
    CourseSound(worlds, moves, placement, i, true);
    HeldSound(worlds[i], n, c, true);
    HeldFacts(worlds[i].b);
  }

  /** A claim that passes the Exec Agent's check, at a time not behind battery's clock, has not been swept for expiry. */
  lemma AuthorizedNotSwept(worlds: seq<World>, moves: seq<Move>, placement: Placement, i: nat, n: Name, c: Claim,
                           caller: Caller, vm: string, host: string, now: Time)
    requires SoberCourse(worlds, moves, true) && worlds[0] == Start0(placement) && i < |worlds|
    requires Holding(worlds[i], n, c) && worlds[i].b.now <= now && Authorize(FactsOf(n.namespace, n.name, c), caller, vm, host, now)
    ensures c.status.lease in worlds[i].b.ledger && worlds[i].b.ledger[c.status.lease].lease.vm == vm
    ensures worlds[i].b.ledger[c.status.lease].cause != Some(Swept)
  {
    hide WorldSound, Course, Sober, Inv;
    CourseSound(worlds, moves, placement, i, true);
    HeldSound(worlds[i], n, c, true);
    SweptLate(worlds[i].b, c.status.lease);
  }

  lemma SweptLate(s: State, l: string)
    requires Inv(s)
    ensures l in s.ledger && s.ledger[l].cause == Some(Swept) ==> s.ledger[l].lease.expiresAt <= s.now
  {
    hide PoolsOk, IdsOk, UidsOk, LeasesOk, LedgerOk, WorkersOk, PhasesOk, ClaimsOk, ReleasesOk, CallsOk, RequestsOk, OnceOk, HostsOk, AnswersOk, LogOk;
  }
}
