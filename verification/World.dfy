/**
 * The Claim Controller against the API server and the pool manager. Answers may be lost, the controller may crash
 * at any point, its cache may lag behind the API server, and claims may be renewed and deleted in between.
 */
module World {
  import opened BatteryTypes
  import opened BatterySections
  import opened BatteryExpiry
  import opened Claim

  type Name = PoolKey

  /** One version of a named object, with its resourceVersion; `None` when there is no object. */
  datatype Version = Version(rv: nat, obj: Option<Claim>)

  /** Where a reconcile stands: what it does next, or what it waits for. */
  datatype Pc =
    | Releasing
    | ReleaseCalled(call: CallId)
    | Reading
    | Asking(request: string)
    | Asked(call: CallId, request: string)
    | Watching
    | Recovering
    | Renewing
    | Renewed(answer: Option<Time>)
    | Checking
    | Listing(now: Time)
    | Listed(now: Time, answer: Option<Time>)
    | Patching
    | Writing

  /** A reconcile: the copy it read, the resourceVersion of that copy, and the claim as it wants it. */
  datatype Reconcile = Reconcile(rv: nat, orig: Claim, obj: Claim, pc: Pc)

  /** A name: the versions from the one the cache shows to the stored one, and the reconcile in flight. */
  datatype Local = Local(view: seq<Version>, rec: Option<Reconcile>)

  datatype Recovery = Idle | Recorded(ids: set<string>) | Found(leases: map<string, Option<Time>>)

  datatype World = World(
    names: map<Name, Local>,
    uids: set<string>,
    deleted: set<string>,
    recovery: Recovery,
    recovered: map<string, Option<Time>>,
    lapsed: set<string>,
    b: State)

  function Start0(placement: Placement): World {
    World(map[], {}, {}, Idle, map[], {}, Init(placement))
  }

  // ----- One name -----

  function Stored(x: Local): Option<Claim> {
    if x.view == [] then None else x.view[|x.view| - 1].obj
  }

  function Cached(x: Local): Option<Claim> {
    if x.view == [] then None else x.view[0].obj
  }

  function StoredRv(x: Local): nat {
    if x.view == [] then 0 else x.view[|x.view| - 1].rv
  }

  function Store(x: Local, obj: Option<Claim>): Local {
    x.(view := x.view + [Version(StoredRv(x) + 1, obj)])
  }

  function Over(x: Local): Local {
    x.(rec := None)
  }

  function At(x: Local, r: Reconcile, obj: Claim, pc: Pc): Local {
    x.(rec := Some(r.(obj := obj, pc := pc)))
  }

  /** A claim that is being deleted goes once its last finalizer does. */
  function Settle(c: Claim): Option<Claim> {
    if c.deleting && !c.release && c.others == {} then None else Some(c)
  }

  function DeleteL(x: Local): Local {
    match Stored(x)
    case None => x
    case Some(c) => if c.deleting then x else Store(x, Settle(c.(deleting := true)))
  }

  function RenewL(x: Local, t: Time): Local {
    match Stored(x)
    case None => x
    case Some(c) => Store(x, Some(c.(renew := Some(t))))
  }

  /** Another controller puts its finalizer on, which a claim being deleted no longer takes, or takes it off. */
  function FinalizerL(x: Local, f: string, on: bool): Local {
    match Stored(x)
    case None => x
    case Some(c) =>
      if on then (if c.deleting then x else Store(x, Some(c.(others := c.others + {f}))))
      else Store(x, Settle(c.(others := c.others - {f})))
  }

  function SeeL(x: Local): Local {
    if |x.view| > 1 then x.(view := x.view[1..]) else x
  }

  // ----- A reconcile -----

  /** The steps up to the first that waits: Release, then EnsureFinalizer, then Bind or the steps of a Bound claim. */
  function BeginL(x: Local): Local {
    match Cached(x)
    case None => x
    case Some(c) =>
      var r := Reconcile(x.view[0].rv, c, c, Writing);
      if c.deleting then
        if !c.release then x
        else if c.status.lease == "" then At(x, r, c.(release := false), Patching)
        else At(x, r, c, Releasing)
      else if !c.release then At(x, r, c.(release := true), Patching)
      else if c.status.lease == "" then At(x, r, c, Reading)
      else if c.status.phase == Bound then At(x, r, c, Watching)
      else x
  }

  function ReleasedL(x: Local, r: Reconcile, answer: Answer): Local {
    if answer == Done || answer == NotFound then At(x, r, r.obj.(release := false), Patching) else Over(x)
  }

  /** Bind reads the claim from the API server itself, and then the Pool. */
  function ReadL(x: Local, r: Reconcile, poolDeleting: bool): Local {
    match Stored(x)
    case None => Over(x)
    case Some(c) =>
      if c.status.lease != "" || c.deleting || !c.release then Over(x)
      else if poolDeleting then At(x, r, WithPhase(r.obj, Pending), Writing)
      else At(x, r, r.obj, Asking(c.uid))
  }

  function AnsweredL(x: Local, r: Reconcile, answer: Answer): Local {
    match answer
    case Granted(l, vm, host) => At(x, r, BoundTo(r.obj, l, vm, host), Writing)
    case NotFound => At(x, r, WithPhase(r.obj, Pending), Writing)
    case Exhausted => At(x, r, WithPhase(r.obj, Pending), Writing)
    case Aborted => At(x, r, WithPhase(r.obj, Pending), Writing)
    case _ => Over(x)
  }

  function WatchL(x: Local, r: Reconcile, deleted: set<string>): Local {
    if r.obj.status.vm in deleted then At(x, r, WithPhase(r.obj, Expired), Writing) else At(x, r, r.obj, Recovering)
  }

  function AfterRecover(c: Claim): Pc {
    if PendingRenewal(c) then Renewing else Checking
  }

  predicate Before(a: Option<Time>, t: Time) {
    a.None? || a.value < t
  }

  function LookUpL(x: Local, r: Reconcile, recovered: map<string, Option<Time>>): Local {
    var l := r.obj.status.lease;
    if l !in recovered then At(x, r, r.obj, AfterRecover(r.obj))
    else match recovered[l]
      case None => At(x, r, WithPhase(r.obj, Expired), Writing)
      case Some(t) =>
        var c := if Before(r.obj.status.expires, t) then WithExpiry(r.obj, t) else r.obj;
        At(x, r, c, AfterRecover(c))
  }

  function RenewedL(x: Local, r: Reconcile, answer: Option<Time>): Local {
    match answer
    case None => At(x, r, WithPhase(r.obj, Expired), Writing)
    case Some(t) => At(x, r, Renewal(r.obj, t), Checking)
  }

  function CheckL(x: Local, r: Reconcile, now: Time): Local {
    if Before(r.obj.status.expires, now + 1) then At(x, r, r.obj, Listing(now)) else At(x, r, r.obj, Writing)
  }

  function ListedL(x: Local, r: Reconcile, now: Time, answer: Option<Time>): Local {
    match answer
    case None => At(x, r, WithPhase(r.obj, Expired), Writing)
    case Some(t) => At(x, r, if t <= now then WithPhase(r.obj, Expired) else WithExpiry(r.obj, t), Writing)
  }

  /** The metadata patch, which the API server refuses if the claim has changed since the copy was read. */
  function PatchL(x: Local, r: Reconcile): Local {
    match Stored(x)
    case None => Over(x)
    case Some(c) =>
      if r.rv != StoredRv(x) then Over(x) else Over(Store(x, Settle(c.(release := r.obj.release))))
  }

  /** The status patch, which goes to the claim of that name however it has changed. */
  function WriteL(x: Local, r: Reconcile): Local {
    match Stored(x)
    case None => Over(x)
    case Some(c) =>
      var status := MergeStatus(c.status, r.orig.status, r.obj.status);
      if status == c.status then Over(x) else Over(Store(x, Some(c.(status := status))))
  }

  // ----- The whole -----

  function SetName(w: World, n: Name, x: Local): World {
    w.(names := w.names[n := x])
  }

  /** The Leases that claims the cache shows Bound record. */
  function CachedLeases(names: map<Name, Local>): set<string> {
    set n | n in names && Cached(names[n]).Some? && HoldsLease(Cached(names[n]).value) :: Cached(names[n]).value.status.lease
  }

  function ExpiryIn(leases: map<string, Lease>, l: string): Option<Time> {
    if l in leases then Some(leases[l].expiresAt) else None
  }

  /** The Lease among those of one Pool. */
  function ExpiryInPool(leases: map<string, Lease>, l: string, pool: PoolKey): Option<Time> {
    if l in leases && leases[l].pool == pool then Some(leases[l].expiresAt) else None
  }

  function Restarted(names: map<Name, Local>): map<Name, Local> {
    map n | n in names :: Over(names[n])
  }

  datatype Move =
    | Battery(step: Step)
    | Create(name: Name, claim: Claim)
    | Delete(name: Name)
    | Renew(name: Name, t: Time)
    | SetFinalizer(name: Name, f: string, on: bool)
    | See(name: Name)
    | Begin(name: Name)
    | CallRelease(name: Name, c: CallId)
    | Read(name: Name, poolDeleting: bool)
    | CallClaim(name: Name, c: CallId, prior: Option<string>, vm: Option<nat>)
    | Answer(name: Name)
    | Lost(name: Name)
    | Watch(name: Name)
    | LookUp(name: Name)
    | CallHeartbeat(name: Name)
    | Check(name: Name)
    | CallList(name: Name)
    | Patch(name: Name)
    | Write(name: Name)
    | GiveUp(name: Name)
    | Crash
    | ListClaims
    | ListLeases
    | Record
    | Report(i: nat)
    | Prune(uid: string)

  predicate Running(w: World, n: Name) {
    n in w.names && w.names[n].rec.Some?
  }

  function Rec(w: World, n: Name): Reconcile
    requires Running(w, n)
  {
    w.names[n].rec.value
  }

  /** A new claim has a new uid and no status. */
  predicate Creatable(w: World, n: Name, c: Claim) {
    && (n in w.names ==> Stored(w.names[n]).None?)
    && c.uid != "" && c.uid !in w.uids && c.status == EMPTY && !c.deleting
  }

  /** The answer that battery has given to the call a reconcile waits for. */
  predicate Arrived(w: World, r: Reconcile) {
    match r.pc
    case ReleaseCalled(c) => c in w.b.answers && w.b.answers[c].Released? && w.b.answers[c].lease == r.obj.status.lease
    case Asked(c, request) =>
      c in w.b.answers && w.b.answers[c].Claimed? && w.b.answers[c].key == r.obj.pool && w.b.answers[c].request == request
    case Renewed(_) => true
    case Listed(_, _) => true
    case _ => false
  }

  /** A call to battery that a reconcile can lose: the request or its answer. */
  predicate Losable(pc: Pc) {
    pc.Asking? || pc.Asked? || pc.Renewing? || pc.Renewed? || pc.Listing? || pc.Listed?
  }

  function AnswerL(w: World, x: Local, r: Reconcile): Local
    requires Arrived(w, r)
  {
    match r.pc
    case ReleaseCalled(c) => ReleasedL(x, r, w.b.answers[c].answer)
    case Asked(c, _) => AnsweredL(x, r, w.b.answers[c].answer)
    case Renewed(answer) => RenewedL(x, r, answer)
    case Listed(now, answer) => ListedL(x, r, now, answer)
  }

  /** A ClaimVM that fails in transit leaves the claim Pending; any other call leaves it as it was. */
  function LostL(x: Local, r: Reconcile): Local {
    At(x, r, if r.pc.Asking? || r.pc.Asked? then WithPhase(r.obj, Pending) else r.obj, Writing)
  }

  // ----- Moves within one name -----

  /** A move within one name, by a client or by the reconcile in flight. */
  predicate IsLocal(m: Move) {
    m.Delete? || m.Renew? || m.SetFinalizer? || m.See? || m.Begin? || m.GiveUp? || IsStep(m)
  }

  predicate IsStep(m: Move) {
    m.Read? || m.Answer? || m.Lost? || m.Watch? || m.LookUp? || m.Check? || m.Patch? || m.Write?
  }

  predicate CanStep(w: World, m: Move, r: Reconcile) {
    match m
    case Read(_, _) => r.pc.Reading?
    case Answer(_) => Arrived(w, r)
    case Lost(_) => Losable(r.pc)
    case Watch(_) => r.pc.Watching?
    case LookUp(_) => r.pc.Recovering?
    case Check(_) => r.pc.Checking?
    case Patch(_) => r.pc.Patching?
    case Write(_) => r.pc.Writing?
    case _ => true
  }

  predicate CanLocal(w: World, m: Move)
    requires IsLocal(m)
  {
    && m.name in w.names
    && (m.Begin? ==> w.names[m.name].rec.None?)
    && (IsStep(m) || m.GiveUp? ==> Running(w, m.name) && CanStep(w, m, Rec(w, m.name)))
  }

  function ReconcileL(w: World, m: Move, x: Local, r: Reconcile): Local {
    match m
    case Read(_, poolDeleting) => ReadL(x, r, poolDeleting)
    case Answer(_) => if Arrived(w, r) then AnswerL(w, x, r) else x
    case Lost(_) => LostL(x, r)
    case Watch(_) => WatchL(x, r, w.deleted)
    case LookUp(_) => LookUpL(x, r, w.recovered)
    case Check(_) => CheckL(x, r, w.b.now)
    case Patch(_) => PatchL(x, r)
    case Write(_) => WriteL(x, r)
    case _ => x
  }

  /** What a move within one name leaves of the name. */
  function NextL(w: World, m: Move): Local {
    if !IsLocal(m) || m.name !in w.names then Local([], None)
    else
      var x := w.names[m.name];
      match m
      case Delete(_) => DeleteL(x)
      case Renew(_, t) => RenewL(x, t)
      case SetFinalizer(_, f, on) => FinalizerL(x, f, on)
      case See(_) => SeeL(x)
      case Begin(_) => BeginL(x)
      case GiveUp(_) => Over(x)
      case _ => if x.rec.Some? then ReconcileL(w, m, x, x.rec.value) else x
  }

  /** A record that recovery found is handed out once. */
  function RecoveredAfter(w: World, m: Move): map<string, Option<Time>> {
    if m.LookUp? && Running(w, m.name) then
      var l := Rec(w, m.name).obj.status.lease;
      if l in w.recovered && w.recovered[l].Some? then w.recovered - {l} else w.recovered
    else w.recovered
  }

  // ----- Calls to battery -----

  /** A move with which a reconcile calls battery. */
  predicate IsCall(m: Move) {
    m.CallRelease? || m.CallClaim? || m.CallHeartbeat? || m.CallList?
  }

  ghost predicate CanCall(w: World, m: Move)
    requires IsCall(m)
  {
    && Running(w, m.name)
    && var r := Rec(w, m.name);
       match m
       case CallRelease(_, c) => r.pc.Releasing? && NewRpc(w.b, c)
       case CallClaim(_, c, prior, vm) => r.pc.Asking? && MaySelect(w.b, c, r.obj.pool, r.pc.request, prior, vm)
       case CallHeartbeat(_) => r.pc.Renewing?
       case CallList(_) => r.pc.Listing?
  }

  /** The point a reconcile reaches when it has called battery. */
  function CalledPc(w: World, m: Move, r: Reconcile): Pc {
    var l := r.obj.status.lease;
    match m
    case CallRelease(_, c) => ReleaseCalled(c)
    case CallClaim(_, c, _, _) => if r.pc.Asking? then Asked(c, r.pc.request) else r.pc
    case CallHeartbeat(_) => Renewed(ExpiryIn(HeartbeatS(w.b, l).leases, l))
    case CallList(_) => if r.pc.Listing? then Listed(r.pc.now, ExpiryInPool(w.b.leases, l, r.obj.pool)) else r.pc
    case _ => r.pc
  }

  function CalledL(w: World, m: Move): Local {
    if !IsCall(m) || !Running(w, m.name) then Local([], None)
    else At(w.names[m.name], Rec(w, m.name), Rec(w, m.name).obj, CalledPc(w, m, Rec(w, m.name)))
  }

  /** The section of battery that a move runs, if it runs one. */
  function StepOf(w: World, m: Move): Option<Step> {
    match m
    case Battery(step) => Some(step)
    case CallRelease(n, c) => if Running(w, n) then Some(Release(c, Rec(w, n).obj.status.lease)) else None
    case CallClaim(n, c, prior, vm) =>
      if Running(w, n) && Rec(w, n).pc.Asking?
      then Some(ClaimSelect(c, Rec(w, n).obj.pool, Rec(w, n).pc.request, prior, vm)) else None
    case CallHeartbeat(n) => if Running(w, n) then Some(Heartbeat(Rec(w, n).obj.status.lease)) else None
    case _ => None
  }

  /** Notes a Lease whose own expiry had passed when a reconcile read it. */
  function LapsedAfter(w: World, m: Move): set<string> {
    if m.CallList? && Running(w, m.name) && Rec(w, m.name).pc.Listing? then
      var r := Rec(w, m.name);
      var answer := ExpiryInPool(w.b.leases, r.obj.status.lease, r.obj.pool);
      if answer.Some? && answer.value <= r.pc.now then w.lapsed + {r.obj.status.lease} else w.lapsed
    else w.lapsed
  }

  // ----- Every move -----

  ghost predicate CanOther(w: World, m: Move) {
    match m
    case Battery(_) => true
    case Create(n, c) => Creatable(w, n, c)
    case ListLeases => w.recovery.Recorded?
    case Record => w.recovery.Found?
    case Report(i) => i < |w.b.log| && ReportsDeletion(w.b.log[i])
    case _ => true
  }

  ghost predicate Can(w: World, m: Move) {
    if IsLocal(m) then CanLocal(w, m) else if IsCall(m) then CanCall(w, m) else CanOther(w, m)
  }

  function CreateW(w: World, n: Name, c: Claim): (r: World)
    ensures r == w.(names := r.names, uids := r.uids)
  {
    var x := if n in w.names then w.names[n] else Local([Version(0, None)], None);
    SetName(w.(uids := w.uids + {c.uid}), n, Store(x, Some(c)))
  }

  function OtherW(w: World, m: Move): World
    requires m.ListLeases? ==> w.recovery.Recorded?
    requires m.Record? ==> w.recovery.Found?
    requires m.Report? ==> m.i < |w.b.log|
  {
    match m
    case Create(n, c) => CreateW(w, n, c)
    case Crash => w.(names := Restarted(w.names), deleted := {}, recovery := Idle, recovered := map[])
    case ListClaims => w.(recovery := Recorded(CachedLeases(w.names)))
    case ListLeases => w.(recovery := Found(map l | l in w.recovery.ids :: ExpiryIn(w.b.leases, l)))
    case Record => w.(recovered := w.recovery.leases, recovery := Idle)
    case Report(i) => w.(deleted := w.deleted + {w.b.log[i].vm})
    case Prune(uid) => w.(deleted := w.deleted - {uid})
    case _ => w
  }

  /** What a move does to everything but battery. */
  ghost function Effect(w: World, m: Move): World
    requires Can(w, m)
  {
    if IsLocal(m) then SetName(w, m.name, NextL(w, m)).(recovered := RecoveredAfter(w, m))
    else if IsCall(m) then SetName(w, m.name, CalledL(w, m)).(lapsed := LapsedAfter(w, m))
    else OtherW(w, m)
  }

  /** What a move does to battery. */
  ghost predicate Runs(w: World, m: Move, b: State) {
    match StepOf(w, m)
    case Some(step) => Next(w.b, step, b)
    case None => b == w.b
  }

  ghost predicate Moved(w: World, m: Move, v: World) {
    Can(w, m) && Runs(w, m, v.b) && v == Effect(w, m).(b := v.b)
  }

  ghost predicate MovedAt(worlds: seq<World>, moves: seq<Move>, i: nat)
    requires i < |moves| && |worlds| == |moves| + 1
  {
    Moved(worlds[i], moves[i], worlds[i + 1])
  }

  /** The worlds a run of moves passes through, the first and the last included. */
  ghost predicate Course(worlds: seq<World>, moves: seq<Move>) {
    |worlds| == |moves| + 1 && forall i: nat | i < |moves| :: MovedAt(worlds, moves, i)
  }
}
