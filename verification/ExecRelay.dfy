/** The relay of one authorized exec exchange between a caller and flintlockd. */
module ExecRelay {
  import opened BatteryTypes

  /** What flintlockd sends: output, or the exit code that ends the exchange. */
  datatype Response = Output(data: seq<bv8>) | Exit(code: int)

  /** What the caller sends: one start message, then standard input. */
  datatype Request = Start(uid: string) | Input(data: seq<bv8>)

  datatype Code = OK | InvalidArgument | Unavailable | Canceled | DeadlineExceeded | Unknown | OtherCode(n: nat)

  /** How the caller's half of the relay ended. */
  datatype Inlet = Open | Closed | Cut

  /**
   * `sent` is what flintlockd has put on its stream and `taken` how much of it the agent has read; `got` is what the
   * caller has received, `given` what flintlockd has received. `secondStart` is the flag the two directions share.
   */
  datatype Relay = Relay(
    sent: seq<Response>,
    taken: nat,
    got: seq<Response>,
    given: seq<Request>,
    inlet: Inlet,
    secondStart: bool,
    ended: Option<Code>)

  /** flintlockd has answered for the MicroVM, and the start message is on its stream. */
  function Opened(start: Request): Relay
    requires start.Start?
  {
    Relay([], 0, [], [start], Open, false, None)
  }

  /** The code of an error that ends the response; `context` is the caller's own cancellation, if that is why. */
  function EndCode(secondStart: bool, context: Option<Code>, eof: bool, code: Code): (r: Code)
    requires context.Some? ==> context.value == Canceled || context.value == DeadlineExceeded
    ensures r != OK
  {
    if secondStart then Code.InvalidArgument
    else if context.Some? then context.value
    else if eof || code == OK || code == Unknown then Code.Unavailable
    else code
  }

  datatype Step =
    | Sends(r: Response)
    | CallerSends(q: Request, delivered: bool)
    | CallerCloses
    | CallerFails
    | Relays(delivered: bool, code: Code)
    | StreamFails(context: Option<Code>, eof: bool, code: Code)

  predicate Enabled(x: Relay, step: Step) {
    match step
    case Sends(_) => true
    case CallerSends(_, _) => x.inlet == Open
    case CallerCloses => x.inlet == Open
    case CallerFails => x.inlet == Open
    case Relays(_, code) => x.ended.None? && x.taken < |x.sent| && code != OK
    case StreamFails(context, _, _) =>
      x.ended.None? && (context.Some? ==> context.value == Canceled || context.value == DeadlineExceeded)
  }

  function Apply(x: Relay, step: Step): Relay
    requires Enabled(x, step)
  {
    match step
    case Sends(r) => x.(sent := x.sent + [r])
    case CallerSends(q, delivered) =>
      if q.Start? then x.(secondStart := true, inlet := Cut)
      else if delivered then x.(given := x.given + [q])
      else x.(inlet := Cut)
    case CallerCloses => x.(inlet := Closed)
    case CallerFails => x.(inlet := Cut)
    case Relays(delivered, code) =>
      var r := x.sent[x.taken];
      if !delivered then x.(taken := x.taken + 1, ended := Some(code))
      else x.(taken := x.taken + 1, got := x.got + [r], ended := if r.Exit? then Some(OK) else None)
    case StreamFails(context, eof, code) => x.(ended := Some(EndCode(x.secondStart, context, eof, code)))
  }

  ghost predicate Run(xs: seq<Relay>, steps: seq<Step>) {
    && |xs| == |steps| + 1
    && forall i | 0 <= i < |steps| :: Enabled(xs[i], steps[i]) && xs[i + 1] == Apply(xs[i], steps[i])
  }

  /** The caller has a prefix of what flintlockd sent, cut only by the end. */
  ghost predicate Faithful(x: Relay) {
    && x.taken <= |x.sent| && |x.got| <= x.taken <= |x.got| + 1
    && x.got == x.sent[..|x.got|]
    && (x.taken > |x.got| ==> x.ended.Some?)
    && (forall i | 0 <= i < |x.got| - 1 :: !x.got[i].Exit?)
    && (x.ended == Some(OK) <==> x.got != [] && x.got[|x.got| - 1].Exit?)
    && |x.given| >= 1 && x.given[0].Start?
    && (forall i | 0 < i < |x.given| :: x.given[i].Input?)
  }

  lemma StepFaithful(x: Relay, step: Step)
    requires Faithful(x) && Enabled(x, step)
    ensures Faithful(Apply(x, step))
  {
  }

  /**
   * However the two directions interleave: the caller receives a prefix of what flintlockd sent, the response ends OK
   * exactly when its last message is flintlockd's exit code, nothing follows an exit code, and flintlockd receives one
   * start message.
   */
  lemma {:induction false} RelayIsFaithful(xs: seq<Relay>, steps: seq<Step>, start: Request, i: nat)
    requires start.Start? && Run(xs, steps) && xs[0] == Opened(start) && i < |xs|
    ensures xs[i].got <= xs[i].sent
    ensures xs[i].ended == Some(OK) <==> xs[i].got != [] && xs[i].got[|xs[i].got| - 1].Exit?
    ensures forall j | 0 <= j < |xs[i].got| - 1 :: !xs[i].got[j].Exit?
    ensures |xs[i].given| >= 1 && xs[i].given[0] == start && forall j | 0 < j < |xs[i].given| :: xs[i].given[j].Input?
    ensures Faithful(xs[i])
  {
    if i > 0 {
      RelayIsFaithful(xs, steps, start, i - 1);
      StepFaithful(xs[i - 1], steps[i - 1]);
    }
  }

  /** Once the response has ended, what the caller received stays as it is. */
  lemma {:induction false} EndedStays(xs: seq<Relay>, steps: seq<Step>, i: nat, j: nat)
    requires Run(xs, steps) && i <= j < |xs| && xs[i].ended.Some?
    ensures xs[j].got == xs[i].got && xs[j].ended == xs[i].ended
    decreases j
  {
    if i < j {
      EndedStays(xs, steps, i, j - 1);
    }
  }
}
