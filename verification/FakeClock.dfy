/** The clock that moves only when it is told to, and the order in which its timers fire. */
module FakeClock {
  import opened BatteryTypes

  /** A pending timer; `order` is when it was armed. */
  datatype Timer = Timer(id: nat, when: Time, order: nat)

  /** A timer fired, and the time that was sent on its channel. */
  datatype Firing = Firing(timer: Timer, at: Time)

  predicate Earlier(a: Timer, b: Timer) {
    a.when < b.when || (a.when == b.when && a.order < b.order)
  }

  ghost predicate Apart(ts: seq<Timer>) {
    forall i, j | 0 <= i < j < |ts| :: ts[i].order != ts[j].order && ts[i].id != ts[j].id
  }

  function Without(ts: seq<Timer>, i: nat): seq<Timer>
    requires i < |ts|
  {
    ts[..i] + ts[i + 1..]
  }

  ghost predicate Sorted(fs: seq<Timer>) {
    forall i, j | 0 <= i < j < |fs| :: Earlier(fs[i], fs[j])
  }

  /** The timers due by `t`, each once, in the order of their deadlines and then of their arming. */
  ghost predicate InFiringOrder(ts: seq<Timer>, t: Time, fs: seq<Timer>) {
    Sorted(fs) && forall x :: x in fs <==> x in ts && x.when <= t
  }

  /** The timers that are still to come after `t`, in the order they were armed. */
  function Rest(ts: seq<Timer>, t: Time): (r: seq<Timer>)
    ensures forall x :: x in r <==> x in ts && x.when > t
    decreases |ts|
  {
    if ts == [] then []
    else
      assert ts == [ts[0]] + ts[1..];
      (if ts[0].when > t then [ts[0]] else []) + Rest(ts[1..], t)
  }

  type Slots = map<nat, Option<Time>>

  /** Some timer of the id is due by `t`, at `at`. */
  ghost predicate DueAt(ts: seq<Timer>, t: Time, k: nat, at: Time) {
    exists i :: 0 <= i < |ts| && ts[i].id == k && ts[i].when == at && at <= t
  }

  /** The channels once the timers due by `t` have fired: an empty one has the deadline of its timer, any other stays. */
  ghost predicate Delivered(was: Slots, ts: seq<Timer>, t: Time, slots: Slots) {
    && slots.Keys == was.Keys
    && forall k | k in was ::
         if was[k].None? && (exists at :: DueAt(ts, t, k, at)) then slots[k].Some? && DueAt(ts, t, k, slots[k].value)
         else slots[k] == was[k]
  }

  // ----- The order of firing is determined, and does not depend on how time is cut -----

  lemma WithoutAll(ts: seq<Timer>, i: nat, x: Timer)
    requires Apart(ts) && i < |ts|
    ensures Apart(Without(ts, i))
    ensures x in Without(ts, i) <==> x in ts && x != ts[i]
  {
    assert ts == ts[..i] + [ts[i]] + ts[i + 1..];
  }

  lemma Head(fs: seq<Timer>, x: Timer)
    requires Sorted(fs) && fs != []
    ensures Sorted(fs[1..]) && (x in fs[1..] <==> x in fs && x != fs[0])
    ensures x in fs && x != fs[0] ==> Earlier(fs[0], x)
  {
    assert fs == [fs[0]] + fs[1..];
  }

  lemma Inhabited(fs: seq<Timer>)
    ensures fs != [] ==> fs[0] in fs
  {
  }

  /** There is only one such order. */
  lemma {:induction false} OneOrder(fs: seq<Timer>, gs: seq<Timer>)
    requires Sorted(fs) && Sorted(gs) && forall x :: x in fs <==> x in gs
    ensures fs == gs
    decreases |fs|
  {
    Inhabited(fs);
    Inhabited(gs);
    if fs != [] {
      Head(fs, gs[0]);
      Head(gs, fs[0]);
      assert fs[0] == gs[0];
      forall x ensures x in fs[1..] <==> x in gs[1..] {
        Head(fs, x);
        Head(gs, x);
      }
      OneOrder(fs[1..], gs[1..]);
      assert fs == [fs[0]] + fs[1..] && gs == [gs[0]] + gs[1..];
    }
  }

  // ----- Setting the clock in one go or in two -----

  /** All of the clock that can be seen: the time, the pending timers in order, the counters and the channels. */
  datatype Clock = Clock(now: Time, timers: seq<Timer>, last: nat, nextId: nat, slots: Slots)

  function Later(a: Time, b: Time): Time {
    if b > a then b else a
  }

  /** What setting the clock to `t` comes to, with the timers it fires in order. */
  ghost predicate SetTo(a: Clock, t: Time, fs: seq<Timer>, b: Clock) {
    && b == a.(now := Later(a.now, t), timers := Rest(a.timers, t), slots := b.slots)
    && Delivered(a.slots, a.timers, t, b.slots)
    && InFiringOrder(a.timers, t, fs)
  }

  lemma RestCons(x: Timer, ts: seq<Timer>, t: Time)
    ensures Rest([x] + ts, t) == (if x.when > t then [x] else []) + Rest(ts, t)
  {
    assert ([x] + ts)[1..] == ts;
  }

  lemma {:induction false} RestTwice(ts: seq<Timer>, t: Time, u: Time)
    requires t <= u
    ensures Rest(Rest(ts, t), u) == Rest(ts, u)
    decreases |ts|, 0
  {
    if ts != [] {
      RestMore(ts[0], ts[1..], t, u);
      assert ts == [ts[0]] + ts[1..];
    }
  }

  lemma {:induction false} RestMore(x: Timer, ts: seq<Timer>, t: Time, u: Time)
    requires t <= u
    ensures Rest(Rest([x] + ts, t), u) == Rest([x] + ts, u)
    decreases |ts|, 1
  {
    hide Rest;
    RestCons(x, ts, t);
    RestCons(x, ts, u);
    RestCons(x, Rest(ts, t), u);
    RestTwice(ts, t, u);
    assert [] + Rest(ts, t) == Rest(ts, t);
  }

  /** A timer due by `u` is due by `t`, or left by then and due after. */
  lemma DueTwice(ts: seq<Timer>, t: Time, u: Time, k: nat, at: Time)
    requires t <= u
    ensures DueAt(ts, u, k, at) <==> DueAt(ts, t, k, at) || DueAt(Rest(ts, t), u, k, at)
  {
    if DueAt(ts, u, k, at) && at > t {
      var i :| 0 <= i < |ts| && ts[i].id == k && ts[i].when == at;
      assert ts[i] in Rest(ts, t);
    }
    if DueAt(Rest(ts, t), u, k, at) {
      var i :| 0 <= i < |Rest(ts, t)| && Rest(ts, t)[i].id == k && Rest(ts, t)[i].when == at;
      assert Rest(ts, t)[i] in ts;
    }
  }

  /** An id has one deadline. */
  lemma DueOnce(ts: seq<Timer>, t: Time, u: Time, k: nat, a: Time, b: Time)
    requires Apart(ts) && DueAt(ts, t, k, a) && DueAt(ts, u, k, b)
    ensures a == b
  {
  }

  /** So there is one way to deliver. */
  lemma DeliveredOnce(was: Slots, ts: seq<Timer>, t: Time, a: Slots, b: Slots)
    requires Apart(ts) && Delivered(was, ts, t, a) && Delivered(was, ts, t, b)
    ensures a == b
  {
    hide DueAt;
    forall k | k in was ensures a[k] == b[k] {
      if was[k].None? && (exists at :: DueAt(ts, t, k, at)) {
        DueOnce(ts, t, t, k, a[k].value, b[k].value);
      }
    }
  }

  lemma DeliveredTwice(was: Slots, ts: seq<Timer>, t: Time, u: Time, a: Slots, b: Slots)
    requires t <= u && Delivered(was, ts, t, a) && Delivered(a, Rest(ts, t), u, b)
    ensures Delivered(was, ts, u, b)
  {
    hide DueAt;
    forall k, at ensures DueAt(ts, u, k, at) <==> DueAt(ts, t, k, at) || DueAt(Rest(ts, t), u, k, at) {
      DueTwice(ts, t, u, k, at);
    }
  }

  lemma FiredTwice(ts: seq<Timer>, t: Time, u: Time, fs: seq<Timer>, gs: seq<Timer>)
    requires t <= u && InFiringOrder(ts, t, fs) && InFiringOrder(Rest(ts, t), u, gs)
    ensures InFiringOrder(ts, u, fs + gs)
  {
    forall i, j | 0 <= i < |fs| && 0 <= j < |gs| ensures Earlier(fs[i], gs[j]) {
      assert fs[i] in fs && gs[j] in gs;
      assert gs[j] in Rest(ts, t);
    }
    assert Sorted(fs + gs);
  }

  /** Setting the clock to `t` and then to `u` fires what setting it to `u` at once does, in that order, and leaves the same clock. */
  lemma CutOrder(a: Clock, t: Time, u: Time, fs: seq<Timer>, b: Clock, gs: seq<Timer>, c: Clock)
    requires t <= u && SetTo(a, t, fs, b) && SetTo(b, u, gs, c)
    ensures SetTo(a, u, fs + gs, c)
    ensures Apart(a.timers) ==> forall hs, d | SetTo(a, u, hs, d) :: hs == fs + gs && d == c
  {
    hide Delivered, Sorted, Rest;
    RestTwice(a.timers, t, u);
    DeliveredTwice(a.slots, a.timers, t, u, b.slots, c.slots);
    FiredTwice(a.timers, t, u, fs, gs);
    if Apart(a.timers) {
      forall hs, d | SetTo(a, u, hs, d) ensures hs == fs + gs && d == c {
        OneOrder(hs, fs + gs);
        DeliveredOnce(a.slots, a.timers, u, c.slots, d.slots);
      }
    }
  }

  ghost predicate Sane(ts: seq<Timer>, last: nat, next: nat, ids: set<nat>) {
    Apart(ts) && forall i | 0 <= i < |ts| :: ts[i].order <= last && ts[i].id < next && ts[i].id in ids
  }

  ghost predicate NotBefore(ts: seq<Timer>, now: Time) {
    forall i | 0 <= i < |ts| :: now <= ts[i].when
  }

  /** What has fired and what is left, on the way to `t`. */
  ghost predicate Underway(was: seq<Timer>, ts: seq<Timer>, t: Time, fs: seq<Timer>) {
    && Sorted(fs) && Apart(ts)
    && (forall f, x | f in fs && x in ts && x.when <= t :: Earlier(f, x))
    && (forall x :: (x in fs || (x in ts && x.when <= t)) <==> (x in was && x.when <= t))
    && Rest(ts, t) == Rest(was, t)
  }

  /** Taking out a timer that is due leaves the others in order. */
  lemma {:induction false} RestWithout(ts: seq<Timer>, i: nat, t: Time)
    requires i < |ts| && ts[i].when <= t
    ensures Rest(Without(ts, i), t) == Rest(ts, t)
    decreases i
  {
    if i == 0 {
      assert Without(ts, 0) == ts[1..];
    } else {
      assert Without(ts, i)[1..] == Without(ts[1..], i - 1) && Without(ts, i)[0] == ts[0];
      RestWithout(ts[1..], i - 1, t);
    }
  }

  lemma {:induction false} AllRest(ts: seq<Timer>, t: Time)
    requires forall i | 0 <= i < |ts| :: ts[i].when > t
    ensures Rest(ts, t) == ts
    decreases |ts|
  {
    if ts != [] {
      AllRest(ts[1..], t);
      assert ts == [ts[0]] + ts[1..];
    }
  }

  lemma FireOne(was: seq<Timer>, ts: seq<Timer>, t: Time, fs: seq<Timer>, i: nat)
    requires Underway(was, ts, t, fs) && i < |ts| && ts[i].when <= t
    requires forall j | 0 <= j < |ts| && j != i && ts[j].when <= t :: Earlier(ts[i], ts[j])
    ensures Underway(was, Without(ts, i), t, fs + [ts[i]])
    ensures NotBefore(Without(ts, i), ts[i].when)
    ensures forall last, next, ids | Sane(ts, last, next, ids) :: Sane(Without(ts, i), last, next, ids)
  {
    hide Rest;
    RestWithout(ts, i, t);
    forall x ensures x in Without(ts, i) <==> x in ts && x != ts[i] {
      WithoutAll(ts, i, x);
    }
    WithoutAll(ts, i, ts[i]);
    assert ts[i] in ts;
    assert forall j | 0 <= j < |fs| :: fs[j] in fs;
  }

  lemma Setting(ts: seq<Timer>, t: Time)
    requires Apart(ts)
    ensures Underway(ts, ts, t, [])
  {
  }

  lemma AllFired(was: seq<Timer>, ts: seq<Timer>, t: Time, fs: seq<Timer>)
    requires Underway(was, ts, t, fs) && forall i | 0 <= i < |ts| :: ts[i].when > t
    ensures InFiringOrder(was, t, fs) && ts == Rest(was, t)
  {
    AllRest(ts, t);
  }

  /** The channels once some timers have fired. */
  ghost function Filled(was: Slots, fs: seq<Timer>): Slots {
    if fs == [] then was
    else
      var slots := Filled(was, fs[..|fs| - 1]);
      var f := fs[|fs| - 1];
      if f.id in slots && slots[f.id].Some? then slots else slots[f.id := Some(f.when)]
  }

  /** What a firing leaves in each channel does not depend on the order. */
  lemma {:induction false} FilledEach(was: Slots, fs: seq<Timer>, k: nat)
    requires Sorted(fs) && forall i | 0 <= i < |fs| :: fs[i].id in was
    requires forall i, j | 0 <= i < j < |fs| :: fs[i].id != fs[j].id
    ensures Filled(was, fs).Keys == was.Keys
    ensures k in was ==>
              && (was[k].Some? || (forall i | 0 <= i < |fs| :: fs[i].id != k) ==> Filled(was, fs)[k] == was[k])
              && (was[k].None? ==> forall i | 0 <= i < |fs| && fs[i].id == k :: Filled(was, fs)[k] == Some(fs[i].when))
    decreases |fs|
  {
    if fs != [] {
      var rest := fs[..|fs| - 1];
      FilledEach(was, rest, k);
      FilledEach(was, rest, fs[|fs| - 1].id);
    }
  }

  lemma FiredDelivers(was: Slots, ts: seq<Timer>, t: Time, fs: seq<Timer>)
    requires Apart(ts) && InFiringOrder(ts, t, fs) && forall i | 0 <= i < |ts| :: ts[i].id in was
    ensures Delivered(was, ts, t, Filled(was, fs))
  {
    hide Filled;
    assert forall i | 0 <= i < |fs| :: fs[i] in fs;
    forall i, j | 0 <= i < j < |fs| ensures fs[i].id != fs[j].id {
      assert Earlier(fs[i], fs[j]) && fs[i] in ts && fs[j] in ts;
    }
    forall k ensures Filled(was, fs).Keys == was.Keys && (k in was ==>
              if was[k].None? && (exists at :: DueAt(ts, t, k, at))
              then Filled(was, fs)[k].Some? && DueAt(ts, t, k, Filled(was, fs)[k].value)
              else Filled(was, fs)[k] == was[k]) {
      FilledEach(was, fs, k);
      DueFires(ts, t, fs, k);
    }
  }

  /** An id is due exactly if a timer of it fires, then. */
  lemma DueFires(ts: seq<Timer>, t: Time, fs: seq<Timer>, k: nat)
    requires InFiringOrder(ts, t, fs)
    ensures forall at :: DueAt(ts, t, k, at) <==> exists i :: 0 <= i < |fs| && fs[i].id == k && fs[i].when == at
  {
    forall at ensures DueAt(ts, t, k, at) <==> exists i :: 0 <= i < |fs| && fs[i].id == k && fs[i].when == at {
      if DueAt(ts, t, k, at) {
        var i :| 0 <= i < |ts| && ts[i].id == k && ts[i].when == at;
        assert ts[i] in fs;
      }
      if i :| 0 <= i < |fs| && fs[i].id == k && fs[i].when == at {
        assert fs[i] in ts;
      }
    }
  }

  function At(fs: seq<Timer>): seq<Firing> {
    seq(|fs|, i requires 0 <= i < |fs| => Firing(fs[i], fs[i].when))
  }

  /** `b` is `a` without the timer, which was in it or not. */
  ghost predicate Removed(was: bool, a: seq<Timer>, b: seq<Timer>, id: nat) {
    if was then exists i :: 0 <= i < |a| && a[i].id == id && b == Without(a, i)
    else b == a && forall i | 0 <= i < |a| :: a[i].id != id
  }

  class Fake {
    var now: Time
    var timers: seq<Timer>
    var last: nat
    var nextId: nat
    /** The one-slot channel of each timer. */
    var slots: Slots
    ghost var fired: seq<Firing>

    ghost function View(): Clock
      reads this
    {
      Clock(now, timers, last, nextId, slots)
    }

    /** Every pending deadline is still to come. */
    ghost predicate Valid()
      reads this
    {
      Sane(timers, last, nextId, slots.Keys) && NotBefore(timers, now + 1)
    }

    constructor (start: Time)
      ensures Valid() && now == start && timers == [] && fired == []
    {
      now, timers, last, nextId, slots, fired := start, [], 0, 0, map[], [];
    }

    /** Delivers the time without blocking; a value already waiting stays. */
    method Fire(timer: Timer, at: Time)
      modifies this`slots, this`fired
      ensures fired == old(fired) + [Firing(timer, at)]
      ensures slots == if timer.id in old(slots) && old(slots[timer.id]).Some? then old(slots) else old(slots)[timer.id := Some(at)]
    {
      if timer.id !in slots || slots[timer.id].None? {
        slots := slots[timer.id := Some(at)];
      }
      fired := fired + [Firing(timer, at)];
    }

    method Arm(id: nat, d: Time)
      requires Valid() && id < nextId && id in slots && forall i | 0 <= i < |timers| :: timers[i].id != id
      modifies this
      ensures Valid() && now == old(now) && nextId == old(nextId)
      ensures slots == if d > 0 || old(slots[id]).Some? then old(slots) else old(slots)[id := Some(now)]
      ensures timers == old(timers) + (if d <= 0 then [] else [Timer(id, now + d, old(last) + 1)])
      ensures fired == old(fired) + (if d <= 0 then [Firing(Timer(id, now + d, old(last) + 1), now)] else [])
    {
      last := last + 1;
      var timer := Timer(id, now + d, last);
      if d <= 0 {
        Fire(timer, now);
        return;
      }
      timers := timers + [timer];
    }

    method NewTimer(d: Time) returns (id: nat)
      requires Valid()
      modifies this
      ensures Valid() && now == old(now) && id == old(nextId)
      ensures slots == old(slots)[id := if d > 0 then None else Some(now)]
      ensures timers == old(timers) + (if d <= 0 then [] else [Timer(id, now + d, old(last) + 1)])
      ensures fired == old(fired) + (if d <= 0 then [Firing(Timer(id, now + d, old(last) + 1), now)] else [])
    {
      id := nextId;
      nextId := nextId + 1;
      slots := slots[id := None];
      Arm(id, d);
    }

    /** Takes a timer out of the pending list, and says whether it was in it. */
    method Remove(id: nat) returns (was: bool)
      requires Valid()
      modifies this`timers
      ensures Valid()
      ensures Removed(was, old(timers), timers, id)
      ensures forall i | 0 <= i < |timers| :: timers[i].id != id
    {
      var i := 0;
      while i < |timers|
        invariant 0 <= i <= |timers| && timers == old(timers)
        invariant forall j | 0 <= j < i :: timers[j].id != id
      {
        if timers[i].id == id {
          timers := Without(timers, i);
          return true;
        }
        i := i + 1;
      }
      was := false;
    }

    method Stop(id: nat) returns (was: bool)
      requires Valid()
      modifies this`timers
      ensures Valid() && Removed(was, old(timers), timers, id)
      ensures forall i | 0 <= i < |timers| :: timers[i].id != id
    {
      was := Remove(id);
    }

    /** Arms the timer again; a value that it had delivered and nobody took is lost. */
    method Reset(id: nat, d: Time) returns (was: bool)
      requires Valid() && id < nextId && id in slots
      modifies this
      ensures Valid() && now == old(now)
      ensures slots == old(slots)[id := if d > 0 then None else Some(now)]
      ensures exists rest :: Removed(was, old(timers), rest, id) &&
                timers == rest + (if d <= 0 then [] else [Timer(id, now + d, old(last) + 1)])
      ensures fired == old(fired) + (if d <= 0 then [Firing(Timer(id, now + d, old(last) + 1), now)] else [])
    {
      was := Remove(id);
      ghost var rest := timers;
      slots := slots[id := None];
      Arm(id, d);
      assert Removed(was, old(timers), rest, id);
    }

    /** The earliest timer due by `t`, ties broken by the order of arming. */
    method NextDue(t: Time) returns (r: Option<nat>)
      requires Apart(timers)
      ensures r.None? ==> forall i | 0 <= i < |timers| :: timers[i].when > t
      ensures r.Some? ==>
                && r.value < |timers| && timers[r.value].when <= t
                && forall j | 0 <= j < |timers| && j != r.value && timers[j].when <= t :: Earlier(timers[r.value], timers[j])
    {
      r := None;
      var i := 0;
      while i < |timers|
        invariant 0 <= i <= |timers|
        invariant r.None? ==> forall j | 0 <= j < i :: timers[j].when > t
        invariant r.Some? ==>
                    && r.value < i && timers[r.value].when <= t
                    && forall j | 0 <= j < i && j != r.value && timers[j].when <= t :: Earlier(timers[r.value], timers[j])
      {
        if timers[i].when <= t && (r.None? || Earlier(timers[i], timers[r.value])) {
          r := Some(i);
        }
        i := i + 1;
      }
    }

    /** Moves the time to `t` and fires exactly the timers due by it, once each, in order, each at its own deadline. */
    method Set(t: Time) returns (ghost fs: seq<Timer>)
      requires Valid()
      modifies this
      ensures Valid() && SetTo(old(View()), t, fs, View())
      ensures fired == old(fired) + At(fs)
    {
      hide Underway, InFiringOrder, Delivered, Earlier, Rest, Filled;
      fs := [];
      ghost var was := slots;
      Setting(timers, t);
      assert Filled(was, []) == was by {
        NoneFilled(was);
      }
      while true
        invariant Sane(timers, last, nextId, slots.Keys) && NotBefore(timers, now) && last == old(last) && nextId == old(nextId)
        invariant old(now) <= now && (now == old(now) ==> NotBefore(timers, now + 1)) && (now <= t || now == old(now))
        invariant Underway(old(timers), timers, t, fs) && fired == old(fired) + At(fs) && slots == Filled(was, fs)
        decreases |timers|
      {
        var next := NextDue(t);
        if next.None? {
          break;
        }
        var timer := timers[next.value];
        FireOne(old(timers), timers, t, fs, next.value);
        if timer.when > now {
          now := timer.when;
        }
        timers := Without(timers, next.value);
        Fire(timer, now);
        FilledNext(was, fs, timer);
        assert At(fs + [timer]) == At(fs) + [Firing(timer, timer.when)];
        fs := fs + [timer];
      }
      AllFired(old(timers), timers, t, fs);
      FiredDelivers(was, old(timers), t, fs);
      if t > now {
        now := t;
      }
    }
  }

  lemma NoneFilled(was: Slots)
    ensures Filled(was, []) == was
  {
  }

  lemma FilledNext(was: Slots, fs: seq<Timer>, f: Timer)
    ensures Filled(was, fs + [f]) ==
            var slots := Filled(was, fs);
            if f.id in slots && slots[f.id].Some? then slots else slots[f.id := Some(f.when)]
  {
    assert (fs + [f])[..|fs|] == fs;
  }
}
