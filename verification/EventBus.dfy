/** How events reach the clients that subscribed to them. */
module EventBus {
  import opened BatteryTypes

  const SUBSCRIBER_BUFFER := 256

  /**
   * An open stream: the Pool it is about, or all, what waits to be sent, and whether the manager has ended it.
   */
  datatype Subscriber = Subscriber(filter: Option<PoolKey>, queue: seq<Event>, dropped: bool)

  predicate Matches(s: Subscriber, key: PoolKey) {
    s.filter.None? || s.filter.value == key
  }

  /** The last `n` of the events, or all of them. */
  function Recent(log: seq<Event>, n: nat): seq<Event> {
    if |log| > n then log[|log| - n..] else log
  }

  /** The events of one Pool, in order. */
  ghost function OfPool(es: seq<Event>, key: PoolKey): seq<Event> {
    if es == [] then [] else (if es[0].key == key then [es[0]] else []) + OfPool(es[1..], key)
  }

  lemma {:induction false} OfPoolAppend(a: seq<Event>, b: seq<Event>, key: PoolKey)
    ensures OfPool(a + b, key) == OfPool(a, key) + OfPool(b, key)
  {
    if a == [] {
      assert a + b == b;
    } else {
      assert (a + b)[1..] == a[1..] + b;
      OfPoolAppend(a[1..], b, key);
    }
  }

  lemma {:induction false} OfOnePool(es: seq<Event>, key: PoolKey, k: PoolKey)
    requires forall i | 0 <= i < |es| :: es[i].key == key
    ensures OfPool(es, k) == if k == key then es else []
  {
    if es != [] {
      OfOnePool(es[1..], key, k);
    }
  }

  /** `es` is the end of the log: it leaves no gap and repeats nothing. */
  ghost predicate EndOf(es: seq<Event>, log: seq<Event>) {
    |es| <= |log| && es == log[|log| - |es|..]
  }

  lemma EndGrows(es: seq<Event>, log: seq<Event>, e: Event)
    requires EndOf(es, log)
    ensures EndOf(es + [e], log + [e])
  {
  }

  /** The ids run from one without a gap, as those of a Pool that is not created again do. */
  ghost predicate Numbered(log: seq<Event>) {
    forall i | 0 <= i < |log| :: log[i].id == i + 1
  }

  /** So the ids in the end of a log are consecutive and end at the newest. */
  lemma EndIsNumbered(es: seq<Event>, log: seq<Event>)
    requires EndOf(es, log) && Numbered(log)
    ensures forall i | 0 <= i < |es| :: es[i].id == |log| - |es| + i + 1
  {
  }

  type Logs = map<PoolKey, seq<Event>>

  function LogOf(logs: Logs, key: PoolKey): seq<Event> {
    if key in logs then logs[key] else []
  }

  /** The bus keeps the last events of every Pool. */
  ghost predicate Keeps(recent: Logs, logs: Logs, replay: nat) {
    forall key :: KeepsOne(LogOf(recent, key), LogOf(logs, key), replay, key)
  }

  ghost predicate KeepsOne(kept: seq<Event>, log: seq<Event>, replay: nat, key: PoolKey) {
    kept == Recent(log, replay) && forall i | 0 <= i < |log| :: log[i].key == key
  }

  /** What the subscriber was sent, and then what waits, is for each of its Pools the end of the Pool's log. */
  ghost predicate Follows(s: Subscriber, sent: seq<Event>, logs: Logs) {
    !s.dropped ==> forall key | Matches(s, key) :: EndOf(OfPool(sent + s.queue, key), LogOf(logs, key))
  }

  /** An event for a subscriber waits for it; one whose buffer is full is dropped. */
  function Offer(s: Subscriber, e: Event): Subscriber {
    if !Matches(s, e.key) then s
    else if |s.queue| < SUBSCRIBER_BUFFER then s.(queue := s.queue + [e])
    else s.(dropped := true)
  }

  function Published(logs: Logs, e: Event): Logs {
    logs[e.key := LogOf(logs, e.key) + [e]]
  }

  lemma KeepsMore(kept: seq<Event>, log: seq<Event>, replay: nat, e: Event)
    requires KeepsOne(kept, log, replay, e.key)
    ensures KeepsOne(Recent(kept + [e], replay), log + [e], replay, e.key)
  {
    assert Recent(Recent(log, replay) + [e], replay) == Recent(log + [e], replay);
  }

  lemma PublishKeeps(recent: Logs, logs: Logs, replay: nat, e: Event)
    requires Keeps(recent, logs, replay)
    ensures Keeps(recent[e.key := Recent(LogOf(recent, e.key) + [e], replay)], Published(logs, e), replay)
  {
    hide KeepsOne, Recent;
    var more := recent[e.key := Recent(LogOf(recent, e.key) + [e], replay)];
    forall key ensures KeepsOne(LogOf(more, key), LogOf(Published(logs, e), key), replay, key) {
      assert KeepsOne(LogOf(recent, key), LogOf(logs, key), replay, key);
      if key == e.key {
        KeepsMore(LogOf(recent, key), LogOf(logs, key), replay, e);
      }
    }
  }

  /** The Pools whose ids do not run on. */
  ghost predicate Restarts(restarted: set<PoolKey>, logs: Logs) {
    forall key :: key in restarted <==> !Numbered(LogOf(logs, key))
  }

  lemma PublishNumbered(logs: Logs, restarted: set<PoolKey>, e: Event)
    requires Restarts(restarted, logs)
    ensures Restarts(if e.id == |LogOf(logs, e.key)| + 1 then restarted else restarted + {e.key}, Published(logs, e))
  {
    hide Numbered;
    var log := LogOf(logs, e.key);
    assert Numbered(log + [e]) <==> Numbered(log) && e.id == |log| + 1 by {
      NumberedMore(log, e);
    }
  }

  lemma NumberedMore(log: seq<Event>, e: Event)
    ensures Numbered(log + [e]) <==> Numbered(log) && e.id == |log| + 1
  {
    if Numbered(log + [e]) {
      assert forall i | 0 <= i < |log| :: (log + [e])[i] == log[i];
      assert (log + [e])[|log|] == e;
    }
  }

  /** The logs of a bus that has published the events. */
  ghost function AllPublished(es: seq<Event>): Logs
    decreases |es|
  {
    if es == [] then map[] else Published(AllPublished(es[..|es| - 1]), es[|es| - 1])
  }

  lemma {:induction false} AllPublishedOf(es: seq<Event>, key: PoolKey)
    ensures LogOf(AllPublished(es), key) == OfPool(es, key)
    decreases |es|
  {
    hide OfPool;
    if es == [] {
      OfOnePool(es, key, key);
    } else {
      var rest, e := es[..|es| - 1], es[|es| - 1];
      AllPublishedOf(rest, key);
      assert es == rest + [e];
      OfPoolAppend(rest, [e], key);
      OfOnePool([e], e.key, key);
    }
  }

  /** One more event of the Pool, sent and logged. */
  lemma OneMore(es: seq<Event>, logs: Logs, e: Event, key: PoolKey)
    requires EndOf(OfPool(es, key), LogOf(logs, key))
    ensures EndOf(OfPool(es + [e], key), LogOf(Published(logs, e), key))
  {
    hide EndOf, OfPool;
    OfPoolAppend(es, [e], key);
    OfOnePool([e], e.key, key);
    EndGrows(OfPool(es, key), LogOf(logs, key), e);
    assert OfPool(es, key) + [] == OfPool(es, key);
  }

  lemma OfferFollows(s: Subscriber, sent: seq<Event>, logs: Logs, e: Event)
    requires Follows(s, sent, logs)
    ensures Follows(Offer(s, e), sent, Published(logs, e))
  {
    hide EndOf, OfPool;
    assert sent + (s.queue + [e]) == (sent + s.queue) + [e];
    if !s.dropped && Matches(s, e.key) {
      forall key | Matches(s, key) ensures EndOf(OfPool((sent + s.queue) + [e], key), LogOf(Published(logs, e), key)) {
        OneMore(sent + s.queue, logs, e, key);
      }
    }
  }

  lemma NewFollows(filter: PoolKey, recent: Logs, logs: Logs, replay: nat)
    requires Keeps(recent, logs, replay)
    ensures Follows(Subscriber(Some(filter), [], false), LogOf(recent, filter), logs)
  {
    hide OfPool;
    var backlog, log := LogOf(recent, filter), LogOf(logs, filter);
    assert backlog + [] == backlog;
    assert KeepsOne(backlog, log, replay, filter);
    OfOnePool(backlog, filter, filter);
    assert EndOf(backlog, log);
  }

  lemma KeptOfOne(recent: Logs, logs: Logs, replay: nat, k: PoolKey)
    requires Keeps(recent, logs, replay) && k in recent
    ensures forall i | 0 <= i < |recent[k]| :: recent[k][i].key == k
  {
    assert KeepsOne(LogOf(recent, k), LogOf(logs, k), replay, k);
  }

  lemma AllFollows(backlog: seq<Event>, recent: Logs, logs: Logs, replay: nat)
    requires Keeps(recent, logs, replay) && forall key :: OfPool(backlog, key) == LogOf(recent, key)
    ensures Follows(Subscriber(None, [], false), backlog, logs)
  {
    assert backlog + [] == backlog;
    forall key ensures EndOf(OfPool(backlog, key), LogOf(logs, key)) {
      assert KeepsOne(LogOf(recent, key), LogOf(logs, key), replay, key);
    }
  }

  /** The backlog of every Pool but those left. */
  ghost predicate Gathered(backlog: seq<Event>, recent: Logs, left: set<PoolKey>) {
    forall key :: OfPool(backlog, key) == if key in left then [] else LogOf(recent, key)
  }

  lemma GatherOne(backlog: seq<Event>, recent: Logs, logs: Logs, replay: nat, left: set<PoolKey>, k: PoolKey)
    requires Keeps(recent, logs, replay) && Gathered(backlog, recent, left) && k in left && k in recent
    ensures Gathered(backlog + recent[k], recent, left - {k})
  {
    hide Keeps, OfPool;
    KeptOfOne(recent, logs, replay, k);
    forall key ensures OfPool(backlog + recent[k], key) == if key in left - {k} then [] else LogOf(recent, key) {
      OfPoolAppend(backlog, recent[k], key);
      OfOnePool(recent[k], k, key);
      assert OfPool(backlog, key) == if key in left then [] else LogOf(recent, key);
    }
  }

  lemma AllGathered(backlog: seq<Event>, recent: Logs, logs: Logs, replay: nat)
    requires Keeps(recent, logs, replay) && Gathered(backlog, recent, {})
    ensures forall key :: OfPool(backlog, key) == LogOf(recent, key) == Recent(LogOf(logs, key), replay)
  {
    forall key ensures OfPool(backlog, key) == LogOf(recent, key) == Recent(LogOf(logs, key), replay) {
      assert KeepsOne(LogOf(recent, key), LogOf(logs, key), replay, key);
      assert OfPool(backlog, key) == LogOf(recent, key);
    }
  }

  lemma NoneGathered(recent: Logs)
    ensures Gathered([], recent, recent.Keys)
  {
  }

  lemma SendFollows(s: Subscriber, sent: seq<Event>, logs: Logs)
    requires Follows(s, sent, logs) && s.queue != []
    ensures Follows(s.(queue := s.queue[1..]), sent + [s.queue[0]], logs)
  {
    assert sent + s.queue == (sent + [s.queue[0]]) + s.queue[1..];
  }

  class EventBus {
    const replay: nat
    var recent: Logs
    var subs: map<nat, Subscriber>
    var nextSub: nat
    /** Every event published for a Pool, and what each subscriber has been sent, its backlog first. */
    ghost var logs: Logs
    ghost var sent: map<nat, seq<Event>>
    /** The Pools whose ids did not run on from one event to the next, because they were created again. */
    ghost var restarted: set<PoolKey>

    ghost predicate Valid()
      reads this
    {
      && Keeps(recent, logs, replay)
      && Restarts(restarted, logs)
      && forall id | id in subs :: id <= nextSub && id in sent && Follows(subs[id], sent[id], logs)
    }

    constructor (n: nat)
      ensures Valid() && replay == n && subs == map[] && logs == map[] && restarted == {}
    {
      replay := n;
      recent, subs, nextSub, logs, sent, restarted := map[], map[], 0, map[], map[], {};
    }

    /**
     * What a subscriber that was not dropped has been sent and then what waits for it has, for each of its Pools,
     * consecutive ids that end at the newest event.
     */
    lemma InSequence(id: nat, key: PoolKey)
      requires Valid() && id in subs && !subs[id].dropped && Matches(subs[id], key) && key !in restarted
      ensures var es := OfPool(sent[id] + subs[id].queue, key);
              && |es| <= |LogOf(logs, key)|
              && forall i | 0 <= i < |es| :: es[i].id == |LogOf(logs, key)| - |es| + i + 1
    {
      hide Keeps, OfPool;
      EndIsNumbered(OfPool(sent[id] + subs[id].queue, key), LogOf(logs, key));
    }

    method OfferAll(e: Event)
      modifies this`subs
      ensures subs == map id | id in old(subs) :: Offer(old(subs)[id], e)
    {
      var left := subs.Keys;
      while left != {}
        invariant left <= subs.Keys == old(subs.Keys)
        invariant forall id | id in left :: subs[id] == old(subs)[id]
        invariant forall id | id in subs && id !in left :: subs[id] == Offer(old(subs)[id], e)
        decreases |left|
      {
        var id :| id in left;
        left := left - {id};
        var s := subs[id];
        if Matches(s, e.key) {
          subs := subs[id := if |s.queue| < SUBSCRIBER_BUFFER then s.(queue := s.queue + [e]) else s.(dropped := true)];
        }
      }
    }

    /** Records the event and offers it to every subscriber. */
    method Publish(e: Event)
      requires Valid()
      modifies this
      ensures Valid() && nextSub == old(nextSub) && sent == old(sent) && logs == Published(old(logs), e)
      ensures restarted == if e.id == |LogOf(old(logs), e.key)| + 1 then old(restarted) else old(restarted) + {e.key}
      ensures subs == map id | id in old(subs) :: Offer(old(subs)[id], e)
    {
      hide Keeps, Follows, Recent, Offer, Published, LogOf, Restarts;
      PublishKeeps(recent, logs, replay, e);
      PublishNumbered(logs, restarted, e);
      restarted := if e.id == |LogOf(logs, e.key)| + 1 then restarted else restarted + {e.key};
      recent := recent[e.key := Recent(LogOf(recent, e.key) + [e], replay)];
      logs := Published(logs, e);
      OfferAll(e);
      forall id | id in subs ensures Follows(subs[id], sent[id], logs) {
        OfferFollows(old(subs)[id], sent[id], old(logs), e);
      }
    }

    /** A new subscriber of one Pool is first sent the events of that Pool that are kept. */
    method Subscribe(filter: PoolKey) returns (id: nat, backlog: seq<Event>)
      requires Valid()
      modifies this
      ensures Valid() && id == old(nextSub) + 1 && id in subs && logs == old(logs) && restarted == old(restarted)
      ensures backlog == Recent(LogOf(logs, filter), replay) && sent == old(sent)[id := backlog]
      ensures subs == old(subs)[id := Subscriber(Some(filter), [], false)]
    {
      hide Follows;
      assert KeepsOne(LogOf(recent, filter), LogOf(logs, filter), replay, filter);
      NewFollows(filter, recent, logs, replay);
      nextSub := nextSub + 1;
      id := nextSub;
      backlog := LogOf(recent, filter);
      subs := subs[id := Subscriber(Some(filter), [], false)];
      sent := sent[id := backlog];
    }

    /** The events that are kept, Pool by Pool. */
    method Gather() returns (backlog: seq<Event>)
      requires Valid()
      ensures forall key :: OfPool(backlog, key) == LogOf(recent, key) == Recent(LogOf(logs, key), replay)
    {
      hide Follows, Keeps, Gathered;
      backlog := [];
      NoneGathered(recent);
      var left := recent.Keys;
      while left != {}
        invariant left <= recent.Keys && Gathered(backlog, recent, left)
        decreases |left|
      {
        var k :| k in left;
        GatherOne(backlog, recent, logs, replay, left, k);
        left := left - {k};
        backlog := backlog + recent[k];
      }
      AllGathered(backlog, recent, logs, replay);
    }

    /** A new subscriber of every Pool is first sent the events of each that are kept. */
    method SubscribeAll() returns (id: nat, backlog: seq<Event>)
      requires Valid()
      modifies this
      ensures Valid() && id == old(nextSub) + 1 && id in subs && logs == old(logs) && restarted == old(restarted)
      ensures forall key :: OfPool(backlog, key) == Recent(LogOf(logs, key), replay)
      ensures sent == old(sent)[id := backlog] && subs == old(subs)[id := Subscriber(None, [], false)]
    {
      hide Follows, Keeps, OfPool, Recent;
      backlog := Gather();
      AllFollows(backlog, recent, logs, replay);
      nextSub := nextSub + 1;
      id := nextSub;
      subs := subs[id := Subscriber(None, [], false)];
      sent := sent[id := backlog];
    }

    /** The stream of a subscriber sends the next event that waits. */
    method Send(id: nat) returns (e: Option<Event>)
      requires Valid() && id in subs
      modifies this
      ensures Valid() && logs == old(logs) && restarted == old(restarted)
      ensures if old(subs)[id].queue == [] then e.None? && subs == old(subs) && sent == old(sent)
              else && e == Some(old(subs)[id].queue[0]) && sent == old(sent)[id := old(sent)[id] + [e.value]]
                   && subs == old(subs)[id := old(subs)[id].(queue := old(subs)[id].queue[1..])]
    {
      hide Keeps, Follows;
      var s := subs[id];
      if s.queue == [] {
        return None;
      }
      SendFollows(s, sent[id], logs);
      e := Some(s.queue[0]);
      subs := subs[id := s.(queue := s.queue[1..])];
      sent := sent[id := sent[id] + [s.queue[0]]];
    }
  }
}
