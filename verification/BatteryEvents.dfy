/** The events that the manager appends, as the bus that delivers them sees them. */
module BatteryEvents {
  import opened BatteryTypes
  import opened BatterySections
  import opened BatteryInvariant
  import opened BatteryTheorems
  import EventBus

  /** The Pool of the key has not been created again since it had its first event. */
  ghost predicate OneRecord(log: seq<Event>, key: PoolKey) {
    forall i, j | 0 <= i < |log| && 0 <= j < |log| && log[i].key == key && log[j].key == key :: log[i].rec == log[j].rec
  }

  lemma {:induction false} SameEvents(log: seq<Event>, key: PoolKey, rec: nat)
    requires forall i | 0 <= i < |log| :: log[i].key == key <==> log[i].rec == rec
    ensures EventBus.OfPool(log, key) == OfRecord(log, rec)
    decreases |log|
  {
    if log != [] {
      var rest, last := log[..|log| - 1], log[|log| - 1];
      SameEvents(rest, key, rec);
      assert log == rest + [last];
      EventBus.OfPoolAppend(rest, [last], key);
      EventBus.OfOnePool([last], last.key, key);
    }
  }

  lemma {:induction false} NoEvents(log: seq<Event>, key: PoolKey)
    requires forall i | 0 <= i < |log| :: log[i].key != key
    ensures EventBus.OfPool(log, key) == []
  {
    if log != [] {
      NoEvents(log[1..], key);
    }
  }

  /**
   * In every run, the events of a Pool that was not created again reach the bus with the ids 1, 2, 3 and so on, so
   * that none of them restarts the numbering.
   */
  lemma BusIsNumbered(states: seq<State>, steps: seq<Step>, placement: Placement, i: nat, key: PoolKey)
    requires Run(states, steps) && states[0] == Init(placement) && i < |states| && OneRecord(states[i].log, key)
    ensures EventBus.Numbered(EventBus.OfPool(states[i].log, key))
  {
    hide Run;
    var log := states[i].log;
    if k :| 0 <= k < |log| && log[k].key == key {
      var rec := log[k].rec;
      KeysOfRun(states, steps, placement, i);
      EventsAreNumbered(states, steps, placement, i, rec);
      SameEvents(log, key, rec);
    } else {
      NoEvents(log, key);
    }
  }

  /**
   * So on a bus that has published what the manager logged in any run, a subscriber that was not dropped has been sent, and
   * then has waiting, the last events of every such Pool among its own with consecutive ids that end at the newest.
   */
  lemma DeliveredInSequence(states: seq<State>, steps: seq<Step>, placement: Placement, i: nat,
                            bus: EventBus.EventBus, id: nat, key: PoolKey)
    requires Run(states, steps) && states[0] == Init(placement) && i < |states| && OneRecord(states[i].log, key)
    requires bus.Valid() && bus.logs == EventBus.AllPublished(states[i].log)
    requires id in bus.subs && !bus.subs[id].dropped && EventBus.Matches(bus.subs[id], key)
    ensures key !in bus.restarted
    ensures var log, es := EventBus.OfPool(states[i].log, key), EventBus.OfPool(bus.sent[id] + bus.subs[id].queue, key);
            |es| <= |log| && forall k | 0 <= k < |es| :: es[k].id == |log| - |es| + k + 1
  {
    hide Run, OneRecord, EventBus.OfPool, EventBus.Numbered, EventBus.AllPublished;
    BusIsNumbered(states, steps, placement, i, key);
    EventBus.AllPublishedOf(states[i].log, key);
    bus.InSequence(id, key);
  }

  lemma KeysOfRun(states: seq<State>, steps: seq<Step>, placement: Placement, i: nat)
    requires Run(states, steps) && states[0] == Init(placement) && i < |states|
    ensures LogKeys(states[i].log, states[i].pools)
  {
    hide PoolsOk, IdsOk, UidsOk, LeasesOk, LedgerOk, WorkersOk, PhasesOk, ClaimsOk, ReleasesOk, CallsOk, RequestsOk, OnceOk, HostsOk, AnswersOk, SweptOk;
    RunInv(states, steps, placement, i);
  }
}
