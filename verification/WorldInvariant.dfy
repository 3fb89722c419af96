/** What every move keeps of the versions of a claim and of the reconcile in flight for it. */
module WorldInvariant {
  import opened BatteryTypes
  import opened BatteryHistory
  import opened Claim
  import opened World

  /** The Lease was granted, and it has ended. */
  predicate HasEnded(ledger: map<string, Entry>, l: string) {
    l in ledger && ledger[l].cause.Some?
  }

  /** A claim records a Lease and its MicroVM together, as battery granted them to the claim's own request. */
  predicate ClaimOk(c: Claim, ledger: map<string, Entry>) {
    && c.uid != ""
    && if c.status.lease == "" then
         && c.status.vm == "" && c.status.host == "" && c.status.expires.None?
         && (c.status.phase == Unset || c.status.phase == Pending)
       else
         && (c.status.phase == Bound || c.status.phase == Expired)
         && c.status.lease in ledger
         && var lease := ledger[c.status.lease].lease;
            lease.vm == c.status.vm && lease.pool == c.pool && lease.request == c.uid
  }

  /** Only the controller takes the release finalizer off, and only from a claim it has seen being deleted. */
  predicate Anchored(o: Option<Claim>) {
    o.Some? && o.value.release && !o.value.deleting
  }

  /** What a version that holds the claim in place says about a later one. */
  predicate Holds(c: Option<Claim>, d: Option<Claim>) {
    Anchored(c) ==> d.Some? && d.value.release && Later(c.value, d.value)
  }

  ghost predicate ViewOk(view: seq<Version>, ledger: map<string, Entry>) {
    && view != []
    && (forall i, j | 0 <= i < j < |view| :: view[i].rv < view[j].rv)
    && (forall i | 0 <= i < |view| && view[i].obj.Some? :: ClaimOk(view[i].obj.value, ledger))
    && (forall i, j | 0 <= i <= j < |view| :: Holds(view[i].obj, view[j].obj))
  }

  /** The claim has no Lease, in the copy read and in the stored claim. */
  predicate Unbound(orig: Claim, stored: Option<Claim>) {
    Anchored(Some(orig)) && orig.status.lease == "" && stored.Some? && stored.value.status.lease == ""
  }

  predicate BoundCopy(r: Reconcile) {
    && Anchored(Some(r.orig)) && r.orig.status.lease != "" && r.orig.status.phase == Bound
    && r.obj == r.orig.(status := r.orig.status.(phase := r.obj.status.phase, expires := r.obj.status.expires,
                                                 observed := r.obj.status.observed))
  }

  predicate PcOk(r: Reconcile, stored: Option<Claim>, ledger: map<string, Entry>) {
    match r.pc
    case Releasing => r.orig.deleting && r.orig.release && r.orig.status.lease != "" && r.obj == r.orig
    case ReleaseCalled(_) => r.orig.deleting && r.orig.release && r.orig.status.lease != "" && r.obj == r.orig
    case Patching =>
      && r.obj == r.orig.(release := r.obj.release)
      && if r.obj.release then !r.orig.deleting
         else r.orig.deleting && (r.orig.status.lease == "" || HasEnded(ledger, r.orig.status.lease))
    case Reading => Anchored(Some(r.orig)) && r.orig.status.lease == "" && r.obj == r.orig
    case Asking(request) => Unbound(r.orig, stored) && r.obj == r.orig && request == r.orig.uid
    case Asked(_, request) => Unbound(r.orig, stored) && r.obj == r.orig && request == r.orig.uid
    case Writing =>
      || (Unbound(r.orig, stored) && r.obj == WithPhase(r.orig, Pending))
      || (Unbound(r.orig, stored) && r.obj == r.orig.(status := r.obj.status) && r.obj.status.lease != "" && ClaimOk(r.obj, ledger)
          && r.obj.status.phase == Bound)
      || (BoundCopy(r) && (r.obj.status.phase == Bound || r.obj.status.phase == Expired))
    case _ => BoundCopy(r) && r.obj.status.phase == Bound
  }

  ghost predicate RecOk(r: Reconcile, view: seq<Version>, ledger: map<string, Entry>)
    requires view != []
  {
    var last := view[|view| - 1];
    && r.rv <= view[0].rv
    && ClaimOk(r.orig, ledger)
    && (r.rv == last.rv ==> last.obj == Some(r.orig))
    && Holds(Some(r.orig), last.obj)
    && PcOk(r, last.obj, ledger)
  }

  ghost predicate LocalOk(x: Local, ledger: map<string, Entry>) {
    ViewOk(x.view, ledger) && (x.rec.Some? ==> RecOk(x.rec.value, x.view, ledger))
  }

  // ----- Later versions -----

  lemma LaterTrans(c: Claim, d: Claim, e: Claim)
    requires Later(c, d) && Later(d, e)
    ensures Later(c, e)
  {
  }

  /** A claim with the release finalizer stays, with what it records. */
  predicate Stays(c: Option<Claim>, d: Option<Claim>) {
    c.Some? && c.value.release ==> d.Some? && d.value.release && Later(c.value, d.value)
  }

  lemma HoldsTrans(c: Option<Claim>, d: Option<Claim>, e: Option<Claim>)
    requires Holds(c, d) && Stays(d, e)
    ensures Holds(c, e)
  {
    if Anchored(c) {
      LaterTrans(c.value, d.value, e.value);
    }
  }

  lemma StoreView(view: seq<Version>, v: Version, ledger: map<string, Entry>)
    requires ViewOk(view, ledger) && view[|view| - 1].rv < v.rv && (v.obj.Some? ==> ClaimOk(v.obj.value, ledger))
    requires Stays(view[|view| - 1].obj, v.obj)
    ensures ViewOk(view + [v], ledger)
  {
    hide ClaimOk, Later;
    forall i | 0 <= i < |view| ensures Holds(view[i].obj, v.obj) {
      HoldsTrans(view[i].obj, view[|view| - 1].obj, v.obj);
    }
    Itself(v.obj);
  }

  lemma Itself(c: Option<Claim>)
    ensures Holds(c, c)
  {
  }

  /** Another writer changes the claim: the status stays, and the reconcile in flight goes on. */
  lemma OutsideOk(x: Local, obj: Option<Claim>, ledger: map<string, Entry>)
    requires LocalOk(x, ledger) && Stays(Stored(x), obj) && (obj.Some? ==> ClaimOk(obj.value, ledger))
    requires Stored(x).Some? && obj.Some? ==> obj.value.status == Stored(x).value.status
    ensures LocalOk(Store(x, obj), ledger)
  {
    hide Later;
    StoreView(x.view, Version(StoredRv(x) + 1, obj), ledger);
    if x.rec.Some? {
      HoldsTrans(Some(x.rec.value.orig), Stored(x), obj);
      RvApart(x.view, ledger);
    }
  }

  lemma RvApart(view: seq<Version>, ledger: map<string, Entry>)
    requires ViewOk(view, ledger)
    ensures view[0].rv <= view[|view| - 1].rv
    ensures view[0].rv == view[|view| - 1].rv ==> |view| == 1
  {
  }

  lemma EditOk(x: Local, ledger: map<string, Entry>, t: Time, f: string, on: bool)
    requires LocalOk(x, ledger)
    ensures LocalOk(DeleteL(x), ledger) && LocalOk(RenewL(x, t), ledger) && LocalOk(FinalizerL(x, f, on), ledger)
  {
    hide LocalOk, Store;
    StoredOk(x, ledger);
    if Stored(x).Some? {
      var c := Stored(x).value;
      OutsideOk(x, Settle(c.(deleting := true)), ledger);
      OutsideOk(x, Some(c.(renew := Some(t))), ledger);
      OutsideOk(x, Some(c.(others := c.others + {f})), ledger);
      OutsideOk(x, Settle(c.(others := c.others - {f})), ledger);
    }
  }

  lemma StoredOk(x: Local, ledger: map<string, Entry>)
    requires LocalOk(x, ledger)
    ensures Stored(x).Some? ==> ClaimOk(Stored(x).value, ledger)
  {
  }

  lemma SeeOk(x: Local, ledger: map<string, Entry>)
    requires LocalOk(x, ledger)
    ensures LocalOk(SeeL(x), ledger)
  {
    hide ClaimOk, Holds;
  }

  /** Battery goes on: Leases keep what claims recorded of them. */
  lemma LedgerOn(x: Local, a: map<string, Entry>, b: map<string, Entry>)
    requires LocalOk(x, a) && LedgerGrows(a, b)
    ensures LocalOk(x, b)
  {
  }

  // ----- A reconcile -----

  lemma OverOk(x: Local, ledger: map<string, Entry>)
    requires LocalOk(x, ledger)
    ensures LocalOk(Over(x), ledger)
  {
  }

  lemma BeginOk(x: Local, ledger: map<string, Entry>)
    requires LocalOk(x, ledger) && x.rec.None?
    ensures LocalOk(BeginL(x), ledger)
  {
    hide ClaimOk, Later;
  }

  lemma ReleasedOk(x: Local, answer: Answer, ledger: map<string, Entry>)
    requires LocalOk(x, ledger) && x.rec.Some? && x.rec.value.pc.ReleaseCalled?
    requires answer == Done || answer == NotFound ==> HasEnded(ledger, x.rec.value.obj.status.lease)
    ensures LocalOk(ReleasedL(x, x.rec.value, answer), ledger)
  {
    hide ViewOk, ClaimOk, Holds;
  }

  lemma ReadOk(x: Local, poolDeleting: bool, ledger: map<string, Entry>)
    requires LocalOk(x, ledger) && x.rec.Some? && x.rec.value.pc.Reading?
    ensures LocalOk(ReadL(x, x.rec.value, poolDeleting), ledger)
  {
    hide ViewOk, ClaimOk;
  }

  lemma AnsweredOk(x: Local, answer: Answer, ledger: map<string, Entry>)
    requires LocalOk(x, ledger) && x.rec.Some? && x.rec.value.pc.Asked?
    requires answer.Granted? ==>
               && answer.lease != "" && answer.lease in ledger
               && var lease := ledger[answer.lease].lease;
                  lease.vm == answer.vm && lease.pool == x.rec.value.obj.pool && lease.request == x.rec.value.pc.request
    ensures LocalOk(AnsweredL(x, x.rec.value, answer), ledger)
  {
    hide ViewOk, Holds;
  }

  /** The steps of a Bound claim. */
  lemma BoundOk(x: Local, pc: Pc, phase: ClaimPhase, expires: Option<Time>, observed: Option<Time>, ledger: map<string, Entry>)
    requires LocalOk(x, ledger) && x.rec.Some? && BoundCopy(x.rec.value) && x.rec.value.obj.status.phase == Bound
    requires (pc.Writing? && (phase == Bound || phase == Expired))
             || (phase == Bound && (pc.Recovering? || pc.Renewing? || pc.Renewed? || pc.Checking? || pc.Listing? || pc.Listed?))
    ensures var r := x.rec.value;
            var status := r.obj.status.(phase := phase, expires := expires, observed := observed);
            LocalOk(At(x, r, r.obj.(status := status), pc), ledger)
  {
    hide ViewOk, ClaimOk, Holds;
  }

  lemma LostOk(x: Local, ledger: map<string, Entry>)
    requires LocalOk(x, ledger) && x.rec.Some? && Losable(x.rec.value.pc)
    ensures LocalOk(LostL(x, x.rec.value), ledger)
  {
    hide ViewOk, ClaimOk, Holds;
  }

  lemma PatchOk(x: Local, ledger: map<string, Entry>)
    requires LocalOk(x, ledger) && x.rec.Some? && x.rec.value.pc.Patching?
    ensures LocalOk(PatchL(x, x.rec.value), ledger)
  {
    RvApart(x.view, ledger);
  }

  /** What a status patch leaves. */
  lemma MergeOk(c: Claim, r: Reconcile, ledger: map<string, Entry>)
    requires r.pc.Writing? && PcOk(r, Some(c), ledger) && ClaimOk(c, ledger) && ClaimOk(r.orig, ledger) && Later(r.orig, c)
    ensures var d := c.(status := MergeStatus(c.status, r.orig.status, r.obj.status));
            ClaimOk(d, ledger) && Later(c, d)
  {
  }

  lemma WriteOk(x: Local, ledger: map<string, Entry>)
    requires LocalOk(x, ledger) && x.rec.Some? && x.rec.value.pc.Writing?
    ensures LocalOk(WriteL(x, x.rec.value), ledger)
  {
    hide Later, MergeStatus;
    var r := x.rec.value;
    if Stored(x).Some? {
      var c := Stored(x).value;
      StoredOk(x, ledger);
      WriterAnchored(x, ledger);
      MergeOk(c, r, ledger);
      StoreView(x.view, Version(StoredRv(x) + 1, Some(c.(status := MergeStatus(c.status, r.orig.status, r.obj.status)))), ledger);
    }
  }

  lemma WriterAnchored(x: Local, ledger: map<string, Entry>)
    requires LocalOk(x, ledger) && x.rec.Some? && x.rec.value.pc.Writing? && Stored(x).Some?
    ensures Anchored(Some(x.rec.value.orig)) && Stored(x).value.release && Later(x.rec.value.orig, Stored(x).value)
  {
    hide Later;
  }
}
