/** The chain of subreconcilers that every controller runs. */
module Chain {
  import opened BatteryTypes

  /** What a subreconciler asks of the chain; a wait that is not positive asks for none. */
  datatype Result = Result(stop: bool, requeue: Time)

  const GO_ON := Result(false, 0)

  function Merge(a: Result, b: Result): Result {
    Result(a.stop || b.stop,
           if b.requeue > 0 && (a.requeue <= 0 || b.requeue < a.requeue) then b.requeue else a.requeue)
  }

  function Wait(r: Result): Option<Time> {
    if r.requeue > 0 then Some(r.requeue) else None
  }

  /** The chain asks for the shortest wait anyone asked for, and stops if anyone stops it. */
  lemma MergeTakesTheShortest(a: Result, b: Result)
    ensures Merge(a, b).stop <==> a.stop || b.stop
    ensures Wait(Merge(a, b)) ==
            match (Wait(a), Wait(b))
            case (None, w) => w
            case (w, None) => w
            case (Some(x), Some(y)) => Some(if x <= y then x else y)
  {
  }

  lemma MergeAssociates(a: Result, b: Result, c: Result)
    ensures Merge(Merge(a, b), c).stop == Merge(a, Merge(b, c)).stop
    ensures Wait(Merge(Merge(a, b), c)) == Wait(Merge(a, Merge(b, c)))
  {
  }

  /** What a subreconciler did: the scope as it left it, its result, and whether it failed. */
  datatype Outcome<S> = Outcome(scope: S, result: Result, error: Option<string>)

  type Sub<!S> = S -> Outcome<S>

  /** What the chain has done so far. */
  datatype Progress<S> = Progress(scope: S, result: Result, errors: seq<string>)

  function Also<S>(p: Progress<S>, o: Outcome<S>): Progress<S> {
    Progress(o.scope, Merge(p.result, o.result), p.errors + (if o.error.Some? then [o.error.value] else []))
  }

  function Halts<S>(o: Outcome<S>): bool {
    o.result.stop || o.error.Some?
  }

  /** The steps in order, up to and including the first that stops or fails. */
  function RunSteps<S>(p: Progress<S>, steps: seq<Sub<S>>): Progress<S>
    decreases |steps|
  {
    if steps == [] then p
    else
      var o := steps[0](p.scope);
      if Halts(o) then Also(p, o) else RunSteps(Also(p, o), steps[1..])
  }

  /** Every one of the steps that run finally, none of which can stop what has run. */
  function RunFinally<S>(p: Progress<S>, steps: seq<Sub<S>>): Progress<S>
    decreases |steps|
  {
    if steps == [] then p
    else
      var o := steps[0](p.scope);
      RunFinally(Also(p, o.(result := o.result.(stop := false))), steps[1..])
  }

  function Begin<S>(scope: S): Progress<S> {
    Progress(scope, GO_ON, [])
  }

  method Run<S>(steps: seq<Sub<S>>, last: seq<Sub<S>>, s: S) returns (p: Progress<S>)
    ensures p == RunFinally(RunSteps(Begin(s), steps), last)
  {
    p := Begin(s);
    var i := 0;
    while i < |steps|
      invariant 0 <= i <= |steps|
      invariant RunSteps(p, steps[i..]) == RunSteps(Begin(s), steps)
    {
      var o := steps[i](p.scope);
      assert steps[i..][0] == steps[i] && steps[i..][1..] == steps[i + 1..];
      p := Also(p, o);
      if Halts(o) {
        break;
      }
      i := i + 1;
    }
    assert p == RunSteps(Begin(s), steps);
    var j := 0;
    while j < |last|
      invariant 0 <= j <= |last|
      invariant RunFinally(p, last[j..]) == RunFinally(RunSteps(Begin(s), steps), last)
    {
      var o := last[j](p.scope);
      assert last[j..][0] == last[j] && last[j..][1..] == last[j + 1..];
      p := Also(p, o.(result := o.result.(stop := false)));
      j := j + 1;
    }
  }

  /** Whether the steps ran to their end. */
  predicate RunsThrough<S>(p: Progress<S>, steps: seq<Sub<S>>)
    decreases |steps|
  {
    steps == [] || (!Halts(steps[0](p.scope)) && RunsThrough(Also(p, steps[0](p.scope)), steps[1..]))
  }

  /** A chain cut in two: the second part runs only if the first ran to its end, from where it left off. */
  lemma {:induction false} RunCut<S>(p: Progress<S>, a: seq<Sub<S>>, b: seq<Sub<S>>)
    ensures RunSteps(p, a + b) == if RunsThrough(p, a) then RunSteps(RunSteps(p, a), b) else RunSteps(p, a)
    ensures RunsThrough(p, a + b) <==> RunsThrough(p, a) && RunsThrough(RunSteps(p, a), b)
    decreases |a|
  {
    if a == [] {
      assert a + b == b;
    } else {
      assert (a + b)[0] == a[0] && (a + b)[1..] == a[1..] + b;
      var o := a[0](p.scope);
      if !Halts(o) {
        RunCut(Also(p, o), a[1..], b);
      }
    }
  }

  /** A chain stops exactly when a step stopped it; the steps that run finally cannot. */
  lemma {:induction false} FinallyCannotStop<S>(p: Progress<S>, last: seq<Sub<S>>)
    ensures RunFinally(p, last).result.stop == p.result.stop
    ensures p.errors <= RunFinally(p, last).errors
    decreases |last|
  {
    if last != [] {
      var o := last[0](p.scope);
      FinallyCannotStop(Also(p, o.(result := o.result.(stop := false))), last[1..]);
    }
  }
}
