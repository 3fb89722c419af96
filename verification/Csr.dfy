/** The signer of host certificates, and the ledger that pins each Node's address. */
module Csr {
  import opened BatteryTypes

  datatype Signer = FlintlockdServing | ExecAgentServing | FlintlockdClient | Foreign

  predicate Serving(s: Signer) {
    s == FlintlockdServing || s == ExecAgentServing
  }

  datatype Cert = Cert(node: string, addr: string)

  /** A CertificateSigningRequest: who asks for what, its conditions, and its certificate. */
  datatype Request = Request(
    signer: Signer,
    node: string,
    addr: string,
    approved: bool,
    denied: bool,
    failed: bool,
    cert: Option<Cert>)

  /** The address pinned to each Node, in canonical form. */
  type Pins = map<string, string>

  /** The last version of the pins. */
  function Cur(pins: seq<Pins>): Pins {
    if pins == [] then map[] else pins[|pins| - 1]
  }

  // ----- The index of the pins -----

  ghost predicate Indexes(byAddress: map<string, seq<string>>, pins: Pins) {
    && (forall a | a in byAddress :: byAddress[a] != [])
    && forall a, n :: (a in byAddress && n in byAddress[a]) <==> (n in pins && pins[n] == a)
  }

  method NewAddressPins(pins: Pins) returns (byAddress: map<string, seq<string>>)
    ensures Indexes(byAddress, pins)
  {
    byAddress := map[];
    var left := pins.Keys;
    while left != {}
      invariant left <= pins.Keys
      invariant forall a | a in byAddress :: byAddress[a] != []
      invariant forall a, n :: (a in byAddress && n in byAddress[a]) <==> (n in pins && n !in left && pins[n] == a)
      decreases |left|
    {
      var node :| node in left;
      left := left - {node};
      var a := pins[node];
      byAddress := byAddress[a := (if a in byAddress then byAddress[a] else []) + [node]];
    }
  }

  /** The ConfigMap of the pins, as one read returned it. */
  datatype ConfigMap = ConfigMap(uid: string, version: string, data: Pins)

  /** The index for the version that was read last. */
  class PinIndex {
    var uid: string
    var version: string
    var pins: Option<map<string, seq<string>>>
    ghost var indexed: Pins

    ghost predicate Valid()
      reads this
    {
      pins.Some? ==> Indexes(pins.value, indexed)
    }

    constructor ()
      ensures Valid() && pins.None?
    {
      uid, version, pins, indexed := "", "", None, map[];
    }

    /** The index of the ConfigMap, built only for a version not seen; the API server never gives two contents one version. */
    method Of(cm: Option<ConfigMap>) returns (byAddress: map<string, seq<string>>)
      requires Valid()
      requires cm.Some? && pins.Some? && cm.value.uid == uid && cm.value.version == version ==> cm.value.data == indexed
      modifies this
      ensures Valid()
      ensures Indexes(byAddress, if cm.Some? then cm.value.data else map[])
    {
      if cm.None? {
        byAddress := NewAddressPins(map[]);
        return;
      }
      if cm.value.version == "" {
        byAddress := NewAddressPins(cm.value.data);
        return;
      }
      if pins.None? || uid != cm.value.uid || version != cm.value.version {
        var fresh' := NewAddressPins(cm.value.data);
        uid, version, pins, indexed := cm.value.uid, cm.value.version, Some(fresh'), cm.value.data;
      }
      byAddress := pins.value;
    }
  }

  // ----- The decision -----

  /** A request that fails a check gets no pin; one that passes may need a new one. */
  datatype Check = Refused | Pinned | NewPin

  predicate Taken(pins: Pins, addr: string) {
    exists n | n in pins :: pins[n] == addr
  }

  function CheckPin(pins: Pins, r: Request): Check {
    if !Serving(r.signer) then Pinned
    else if r.node in pins then (if pins[r.node] == r.addr then Pinned else Refused)
    else if Taken(pins, r.addr) then Refused
    else NewPin
  }

  datatype Decision = Leave | Deny | Fail | Sign(pin: bool)

  /** The chain: leave what is decided, review, then deny, mark failed, or sign. `passes` is every other check. */
  function Decide(r: Request, pins: Pins, passes: bool): Decision {
    var check := CheckPin(pins, r);
    if r.signer == Foreign || r.cert.Some? || r.failed || r.denied then Leave
    else if !passes || check == Refused then (if r.approved then Fail else Deny)
    else Sign(check == NewPin)
  }

  datatype Condition = Approved | Denied

  /** What one reconcile has found and wants to write. */
  class Scope {
    const r: Request
    var denial: bool
    var pin: Option<Pins>
    var approval: Option<Condition>
    var failure: bool
    var certificate: Option<Cert>

    constructor (copy: Request)
      ensures r == copy && Nothing()
    {
      r := copy;
      denial, pin, approval, failure, certificate := false, None, None, false, None;
    }

    predicate Nothing()
      reads this
    {
      !denial && pin.None? && approval.None? && !failure && certificate.None?
    }

    /** The check of the address against the pins, which notes the pin that a Node without one gets. */
    method CheckAddress(pins: Pins, byAddress: map<string, seq<string>>)
      requires Indexes(byAddress, pins) && !denial && pin.None?
      modifies this`denial, this`pin
      ensures denial <==> CheckPin(pins, r) == Refused
      ensures pin == if CheckPin(pins, r) == NewPin then Some(pins[r.node := r.addr]) else None
    {
      if !Serving(r.signer) {
        return;
      }
      if r.node in pins {
        denial := pins[r.node] != r.addr;
        return;
      }
      if r.addr in byAddress {
        ghost var other := byAddress[r.addr][0];
        assert other in byAddress[r.addr];
        assert other in pins && pins[other] == r.addr;
        denial := true;
        return;
      }
      pin := Some(pins[r.node := r.addr]);
    }

    /** The chain of steps; `passes` is every check but that of the address, and `signs` whether the CA could be read. */
    method Run(passes: bool, signs: bool, pins: Pins, byAddress: map<string, seq<string>>)
      requires Indexes(byAddress, pins) && Nothing()
      modifies this
      ensures match Decide(r, pins, passes)
              case Leave => Nothing()
              case Deny => approval == Some(Denied) && !failure && certificate.None?
              case Fail => approval.None? && failure && certificate.None?
              case Sign(unpinned) =>
                && approval == (if r.approved then None else Some(Approved)) && !failure
                && certificate == (if signs then Some(Cert(r.node, r.addr)) else None)
                && pin == if unpinned then Some(pins[r.node := r.addr]) else None
    {
      if r.signer == Foreign || r.cert.Some? || r.failed {
        return;
      }
      if r.denied {
        return;
      }
      if passes {
        CheckAddress(pins, byAddress);
      } else {
        denial := true;
      }
      if !r.approved && denial {
        approval := Some(Denied);
        return;
      }
      if r.approved && denial {
        failure := true;
        return;
      }
      if !r.approved {
        approval := Some(Approved);
      }
      if signs {
        certificate := Some(Cert(r.node, r.addr));
      }
    }
  }

  // ----- Reconciles -----

  datatype Pc = Approving | Failing | Pinning | Certifying

  /** A reconcile: its copy of the request and of the pins with their versions, what it decided, and what it writes next. */
  datatype Reconcile = Reconcile(rv: nat, copy: Request, pinRv: nat, decision: Decision, pc: Pc)

  /** Every version of every request and of the pins; the first version of the pins is that there are none. */
  datatype World = World(requests: map<string, seq<Request>>, pins: seq<Pins>, recs: map<string, Reconcile>)

  const START := World(map[], [map[]], map[])

  datatype Move =
    | Create(name: string, r: Request)
    | Approve(name: string)
    | Reject(name: string)
    | Begin(name: string, rv: nat, pinRv: nat, passes: bool)
    | WriteApproval(name: string)
    | WriteFailed(name: string)
    | WritePin(name: string)
    | WriteCertificate(name: string)
    | GiveUp(name: string)

  predicate Known(w: World, name: string) {
    name in w.requests && w.requests[name] != []
  }

  function Stored(w: World, name: string): Request
    requires Known(w, name)
  {
    w.requests[name][|w.requests[name]| - 1]
  }

  predicate Writes(w: World, name: string, pc: Pc) {
    Known(w, name) && name in w.recs && w.recs[name].pc == pc
  }

  predicate Can(w: World, m: Move) {
    match m
    case Create(name, r) => name !in w.requests && !r.approved && !r.denied && !r.failed && r.cert.None?
    case Approve(name) => Known(w, name)
    case Reject(name) => Known(w, name)
    case Begin(name, rv, pinRv, _) => Known(w, name) && name !in w.recs && rv < |w.requests[name]| && pinRv < |w.pins|
    case WriteApproval(name) => Writes(w, name, Approving)
    case WriteFailed(name) => Writes(w, name, Failing)
    case WritePin(name) => Writes(w, name, Pinning) && w.pins != []
    case WriteCertificate(name) => Writes(w, name, Certifying)
    case GiveUp(name) => true
  }

  function Add(w: World, name: string, r: Request): World
    requires Known(w, name)
  {
    w.(requests := w.requests[name := w.requests[name] + [r]])
  }

  function Drop(w: World, name: string): World {
    w.(recs := w.recs - {name})
  }

  /** The API server refuses a write of a version that is not the stored one. */
  predicate Fresh(w: World, name: string)
    requires Known(w, name) && name in w.recs
  {
    w.recs[name].rv == |w.requests[name]| - 1
  }

  function FirstWrite(copy: Request, d: Decision): Pc {
    match d
    case Fail => Failing
    case Sign(pin) => if !copy.approved then Approving else if pin then Pinning else Certifying
    case _ => Approving
  }

  function BeginW(w: World, name: string, rv: nat, pinRv: nat, passes: bool): World
    requires Can(w, Begin(name, rv, pinRv, passes))
  {
    var copy := w.requests[name][rv];
    var d := Decide(copy, w.pins[pinRv], passes);
    if d == Leave then w else w.(recs := w.recs[name := Reconcile(rv, copy, pinRv, d, FirstWrite(copy, d))])
  }

  /** Denied ends the reconcile; Approved goes on with the request as it is then stored. */
  function WriteApprovalW(w: World, name: string): World
    requires Can(w, WriteApproval(name))
  {
    var r := w.recs[name];
    if !Fresh(w, name) then Drop(w, name)
    else if r.decision == Deny then Drop(Add(w, name, r.copy.(denied := true)), name)
    else if !r.decision.Sign? then Drop(w, name)
    else
      var now := r.copy.(approved := true);
      var v := Add(w, name, now);
      v.(recs := v.recs[name := r.(rv := r.rv + 1, copy := now, pc := if r.decision.pin then Pinning else Certifying)])
  }

  /** The pin is written on the version that was checked: created when there was none, or updated. */
  function WritePinW(w: World, name: string): World
    requires Can(w, WritePin(name))
  {
    var r := w.recs[name];
    if r.pinRv != |w.pins| - 1 then Drop(w, name)
    else w.(pins := w.pins + [w.pins[r.pinRv][r.copy.node := r.copy.addr]], recs := w.recs[name := r.(pc := Certifying)])
  }

  function Do(w: World, m: Move): World
    requires Can(w, m)
  {
    match m
    case Create(name, r) => w.(requests := w.requests[name := [r]])
    case Approve(name) => if Stored(w, name).denied then w else Add(w, name, Stored(w, name).(approved := true))
    case Reject(name) => if Stored(w, name).approved then w else Add(w, name, Stored(w, name).(denied := true))
    case Begin(name, rv, pinRv, passes) => BeginW(w, name, rv, pinRv, passes)
    case WriteApproval(name) => WriteApprovalW(w, name)
    case WriteFailed(name) =>
      Drop(if Fresh(w, name) then Add(w, name, w.recs[name].copy.(failed := true)) else w, name)
    case WritePin(name) => WritePinW(w, name)
    case WriteCertificate(name) =>
      var copy := w.recs[name].copy;
      Drop(if Fresh(w, name) then Add(w, name, copy.(cert := Some(Cert(copy.node, copy.addr)))) else w, name)
    case GiveUp(name) => Drop(w, name)
  }

  ghost predicate Course(worlds: seq<World>, moves: seq<Move>) {
    && |worlds| == |moves| + 1
    && forall i | 0 <= i < |moves| :: Can(worlds[i], moves[i]) && worlds[i + 1] == Do(worlds[i], moves[i])
  }

  // ----- The invariant -----

  ghost predicate Within(a: Pins, b: Pins) {
    forall n | n in a :: n in b && b[n] == a[n]
  }

  ghost predicate OneEach(pins: Pins) {
    forall m, n | m in pins && n in pins && pins[m] == pins[n] :: m == n
  }

  ghost predicate PinsOk(pins: seq<Pins>) {
    && pins != []
    && (forall i, j | 0 <= i <= j < |pins| :: Within(pins[i], pins[j]))
    && (forall i | 0 <= i < |pins| :: OneEach(pins[i]))
  }

  predicate Held(pins: Pins, r: Request) {
    Serving(r.signer) ==> r.node in pins && pins[r.node] == r.addr
  }

  /** A certificate is for what was asked, on an approved request that is neither denied nor failed, with its address pinned. */
  predicate RequestOk(r: Request, pins: Pins) {
    && !(r.approved && r.denied)
    && (r.cert.Some? ==> r.cert.value == Cert(r.node, r.addr) && r.approved && !r.denied && !r.failed && Held(pins, r))
  }

  ghost predicate VersionsOk(rs: seq<Request>, pins: Pins) {
    rs != [] && forall i | 0 <= i < |rs| :: RequestOk(rs[i], pins)
  }

  ghost predicate RecOk(r: Reconcile, rs: seq<Request>, pins: seq<Pins>) {
    && r.rv < |rs| && r.copy == rs[r.rv] && r.pinRv < |pins|
    && r.copy.cert.None? && !r.copy.failed && !r.copy.denied
    && match r.pc
       case Approving => !r.copy.approved && (r.decision.Sign? ==> SignOk(r, pins))
       case Failing => r.copy.approved
       case Pinning => r.copy.approved && r.decision.Sign? && r.decision.pin && SignOk(r, pins)
       case Certifying => r.copy.approved && Held(Cur(pins), r.copy)
  }

  ghost predicate SignOk(r: Reconcile, pins: seq<Pins>)
    requires r.decision.Sign? && r.pinRv < |pins|
  {
    if r.decision.pin then r.copy.node !in pins[r.pinRv] && !Taken(pins[r.pinRv], r.copy.addr)
    else Held(pins[r.pinRv], r.copy)
  }

  ghost predicate Ok(w: World) {
    && PinsOk(w.pins)
    && (forall name | name in w.requests :: VersionsOk(w.requests[name], Cur(w.pins)))
    && (forall name | name in w.recs :: name in w.requests && RecOk(w.recs[name], w.requests[name], w.pins))
  }

  /** A new pin for a Node that has none, of an address nobody has, keeps the ledger. */
  lemma PinOn(pins: seq<Pins>, node: string, addr: string)
    requires PinsOk(pins) && node !in Cur(pins) && !Taken(Cur(pins), addr)
    ensures PinsOk(pins + [Cur(pins)[node := addr]])
  {
    var last := Cur(pins);
    var next := last[node := addr];
    assert OneEach(next);
    forall i | 0 <= i < |pins| ensures Within(pins[i], next) {
      assert Within(pins[i], last);
    }
  }

  lemma VersionsOn(rs: seq<Request>, a: Pins, b: Pins)
    requires VersionsOk(rs, a) && Within(a, b)
    ensures VersionsOk(rs, b)
  {
  }

  lemma RecOn(r: Reconcile, rs: seq<Request>, pins: seq<Pins>, next: Pins)
    requires RecOk(r, rs, pins) && pins != [] && Within(Cur(pins), next)
    ensures RecOk(r, rs, pins + [next])
  {
    assert (pins + [next])[r.pinRv] == pins[r.pinRv];
  }

  lemma WritePinOk(w: World, name: string)
    requires Ok(w) && Can(w, WritePin(name))
    ensures Ok(WritePinW(w, name))
  {
    hide PinsOk, OneEach, VersionsOk, Taken, Held;
    var r := w.recs[name];
    var next := Cur(w.pins)[r.copy.node := r.copy.addr];
    assert RecOk(r, w.requests[name], w.pins);
    if r.pinRv == |w.pins| - 1 {
      PinOn(w.pins, r.copy.node, r.copy.addr);
      assert Within(Cur(w.pins), next);
      forall n | n in w.requests ensures VersionsOk(w.requests[n], next) {
        VersionsOn(w.requests[n], Cur(w.pins), next);
      }
      forall n | n in w.recs ensures RecOk(w.recs[n], w.requests[n], w.pins + [next]) {
        RecOn(w.recs[n], w.requests[n], w.pins, next);
      }
      PinnedNow(r, w.requests[name], w.pins, next);
    } else {
      DropOk(w, name);
    }
  }

  lemma PinnedNow(r: Reconcile, rs: seq<Request>, pins: seq<Pins>, next: Pins)
    requires RecOk(r, rs, pins) && r.pc == Pinning && next == Cur(pins)[r.copy.node := r.copy.addr]
    ensures RecOk(r.(pc := Certifying), rs, pins + [next])
  {
    assert Cur(pins + [next]) == next;
  }

  lemma AddOk(w: World, name: string, r: Request)
    requires Ok(w) && Known(w, name) && RequestOk(r, Cur(w.pins))
    ensures Ok(Add(w, name, r))
  {
    forall n | n in w.recs ensures RecOk(w.recs[n], Add(w, name, r).requests[n], w.pins) {
      assert RecOk(w.recs[n], w.requests[n], w.pins);
    }
  }

  lemma DropOk(w: World, name: string)
    requires Ok(w)
    ensures Ok(Drop(w, name))
  {
  }

  lemma BeginOk(w: World, name: string, rv: nat, pinRv: nat, passes: bool)
    requires Ok(w) && Can(w, Begin(name, rv, pinRv, passes))
    ensures Ok(BeginW(w, name, rv, pinRv, passes))
  {
    var copy := w.requests[name][rv];
    var d := Decide(copy, w.pins[pinRv], passes);
    assert RequestOk(copy, Cur(w.pins));
    assert Within(w.pins[pinRv], Cur(w.pins));
  }

  lemma WriteApprovalOk(w: World, name: string)
    requires Ok(w) && Can(w, WriteApproval(name))
    ensures Ok(WriteApprovalW(w, name))
  {
    hide Ok, RequestOk, PinsOk;
    ApprovingOk(w, name);
    var r := w.recs[name];
    DropOk(w, name);
    if Fresh(w, name) {
      if r.decision == Deny {
        AddOk(w, name, r.copy.(denied := true));
        DropOk(Add(w, name, r.copy.(denied := true)), name);
      } else if r.decision.Sign? {
        AddOk(w, name, r.copy.(approved := true));
        ApprovedOk(w, name);
      }
    }
  }

  lemma ApprovingOk(w: World, name: string)
    requires Ok(w) && Can(w, WriteApproval(name))
    ensures RequestOk(w.recs[name].copy.(approved := true), Cur(w.pins)) && RequestOk(w.recs[name].copy.(denied := true), Cur(w.pins))
  {
    assert RecOk(w.recs[name], w.requests[name], w.pins);
  }

  /** The reconcile goes on with the request as it is stored approved. */
  lemma ApprovedOk(w: World, name: string)
    requires Ok(w) && Can(w, WriteApproval(name)) && Fresh(w, name) && w.recs[name].decision.Sign?
    requires Ok(Add(w, name, w.recs[name].copy.(approved := true)))
    ensures Ok(WriteApprovalW(w, name))
  {
    hide RequestOk, OneEach, VersionsOk, Taken;
    var r := w.recs[name];
    assert RecOk(r, w.requests[name], w.pins);
    assert Within(w.pins[r.pinRv], Cur(w.pins));
  }

  lemma MoveOk(w: World, m: Move)
    requires Ok(w) && Can(w, m)
    ensures Ok(Do(w, m))
  {
    hide Ok;
    match m
    case Create(name, r) => CreateOk(w, name, r);
    case Approve(name) => ConditionOk(w, name);
    case Reject(name) => ConditionOk(w, name);
    case Begin(name, rv, pinRv, passes) => BeginOk(w, name, rv, pinRv, passes);
    case WriteApproval(name) => WriteApprovalOk(w, name);
    case WriteFailed(name) => LastWriteOk(w, m);
    case WritePin(name) => WritePinOk(w, name);
    case WriteCertificate(name) => LastWriteOk(w, m);
    case GiveUp(name) => DropOk(w, name);
  }

  lemma CreateOk(w: World, name: string, r: Request)
    requires Ok(w) && Can(w, Create(name, r))
    ensures Ok(Do(w, Create(name, r)))
  {
  }

  lemma ConditionOk(w: World, name: string)
    requires Ok(w) && Known(w, name)
    ensures Ok(Do(w, Approve(name))) && Ok(Do(w, Reject(name)))
  {
    assert RequestOk(Stored(w, name), Cur(w.pins));
    if !Stored(w, name).denied {
      AddOk(w, name, Stored(w, name).(approved := true));
    }
    if !Stored(w, name).approved {
      AddOk(w, name, Stored(w, name).(denied := true));
    }
  }

  lemma LastWriteOk(w: World, m: Move)
    requires Ok(w) && Can(w, m) && (m.WriteFailed? || m.WriteCertificate?)
    ensures Ok(Do(w, m))
  {
    var copy := w.recs[m.name].copy;
    assert RecOk(w.recs[m.name], w.requests[m.name], w.pins);
    assert RequestOk(copy, Cur(w.pins));
    if Fresh(w, m.name) {
      if m.WriteFailed? {
        AddOk(w, m.name, copy.(failed := true));
        DropOk(Add(w, m.name, copy.(failed := true)), m.name);
      } else {
        AddOk(w, m.name, copy.(cert := Some(Cert(copy.node, copy.addr))));
        DropOk(Add(w, m.name, copy.(cert := Some(Cert(copy.node, copy.addr)))), m.name);
      }
    } else {
      DropOk(w, m.name);
    }
  }

  lemma {:induction false} CourseOk(worlds: seq<World>, moves: seq<Move>, i: nat)
    requires Course(worlds, moves) && worlds[0] == START && i < |worlds|
    ensures Ok(worlds[i])
  {
    hide Ok, Can, Do;
    if i == 0 {
      StartOk();
    } else {
      CourseOk(worlds, moves, i - 1);
      MoveOk(worlds[i - 1], moves[i - 1]);
    }
  }

  lemma StartOk()
    ensures Ok(START)
  {
  }

  // ----- Over every course -----

  /** No address is ever pinned to two Nodes, and an entry is never changed or removed. */
  lemma {:induction false} PinsStay(worlds: seq<World>, moves: seq<Move>, i: nat, j: nat, node: string)
    requires Course(worlds, moves) && worlds[0] == START && i <= j < |worlds|
    ensures worlds[i].pins <= worlds[j].pins && OneEach(Cur(worlds[j].pins))
    ensures var a := Cur(worlds[i].pins);
            var b := Cur(worlds[j].pins);
            node in a ==> node in b && b[node] == a[node]
    decreases j
  {
    hide Can, Do;
    CourseOk(worlds, moves, j);
    CourseOk(worlds, moves, i);
    if i < j {
      PinsStay(worlds, moves, i, j - 1, node);
      PinsGrow(worlds[j - 1], moves[j - 1]);
      assert Within(worlds[j].pins[|worlds[i].pins| - 1], Cur(worlds[j].pins));
    }
  }

  lemma PinsGrow(w: World, m: Move)
    requires Can(w, m)
    ensures w.pins <= Do(w, m).pins
  {
  }

  /** Every stored serving certificate names the address pinned to its Node, and carries no Denied or Failed beside it. */
  lemma CertificatesArePinned(worlds: seq<World>, moves: seq<Move>, i: nat, name: string)
    requires Course(worlds, moves) && worlds[0] == START && i < |worlds| && Known(worlds[i], name)
    requires Stored(worlds[i], name).cert.Some?
    ensures var r := Stored(worlds[i], name);
            var pins := Cur(worlds[i].pins);
            && r.approved && !r.denied && !r.failed && r.cert.value == Cert(r.node, r.addr)
            && (Serving(r.signer) ==> r.node in pins && pins[r.node] == r.addr)
  {
    hide Can, Do;
    CourseOk(worlds, moves, i);
    assert RequestOk(Stored(worlds[i], name), Cur(worlds[i].pins));
  }
}
