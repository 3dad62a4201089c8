/**
 How a node follows the subscription store: the difference between what it last saw and what
 the store lists now (processing/broker/strategies/distributed/difference.py), carried out on
 its local subscribers (observer.py and processing/consumers/subscription.py).
 */
module Difference {
  import opened Prelude
  import opened Events
  import opened Subscriptions

  datatype SubscriptionChange = SubscriptionChange(group: string, id: string, eventSource: EventSource) {
    function SubscriberKey(): Key { Key(group, id) }
  }

  /** The list comes from a store: one subscription per key. */
  ghost predicate OnePerKey(subscriptions: seq<Subscription>) {
    forall i, j :: 0 <= i < j < |subscriptions| ==>
      subscriptions[i].SubscriptionKey() != subscriptions[j].SubscriptionKey()
  }

  /** Every source of every subscription, as a change would name it. */
  function Pairs(subscriptions: seq<Subscription>): (r: set<SubscriptionChange>)
    ensures forall c :: c in r <==>
      exists s :: s in subscriptions && s.SubscriptionKey() == c.SubscriberKey() && c.eventSource in s.eventSources
  {
    set s, source | s in subscriptions && source in s.eventSources :: SubscriptionChange(s.group, s.id, source)
  }

  function SourcesOf(subscriptions: seq<Subscription>, key: Key): (r: set<EventSource>)
    ensures forall source :: source in r <==> SubscriptionChange(key.group, key.id, source) in Pairs(subscriptions)
  {
    set s, source | s in subscriptions && s.SubscriptionKey() == key && source in s.eventSources :: source
  }

  function ByKey(subscriptions: seq<Subscription>): map<Key, Subscription> {
    if subscriptions == [] then map[]
    else
      var last := subscriptions[|subscriptions| - 1];
      ByKey(subscriptions[..|subscriptions| - 1])[last.SubscriptionKey() := last]
  }

  lemma {:induction false} ByKeyFinds(subscriptions: seq<Subscription>)
    requires OnePerKey(subscriptions)
    ensures forall s :: s in subscriptions ==>
      s.SubscriptionKey() in ByKey(subscriptions) && ByKey(subscriptions)[s.SubscriptionKey()] == s
    ensures forall key :: key in ByKey(subscriptions) ==>
      ByKey(subscriptions)[key] in subscriptions && ByKey(subscriptions)[key].SubscriptionKey() == key
  {
    if subscriptions != [] {
      var rest, last := subscriptions[..|subscriptions| - 1], subscriptions[|subscriptions| - 1];
      ByKeyFinds(rest);
      LastHasOwnKey(subscriptions);
      assert forall s :: s in subscriptions <==> s in rest || s == last;
    }
  }

  lemma LastHasOwnKey(subscriptions: seq<Subscription>)
    requires OnePerKey(subscriptions) && subscriptions != []
    ensures forall s :: s in subscriptions[..|subscriptions| - 1] ==>
      s.SubscriptionKey() != subscriptions[|subscriptions| - 1].SubscriptionKey()
  {
    var rest := subscriptions[..|subscriptions| - 1];
    forall s | s in rest ensures s.SubscriptionKey() != subscriptions[|subscriptions| - 1].SubscriptionKey() {
      var i :| 0 <= i < |rest| && rest[i] == s;
      assert subscriptions[i] == s;
    }
  }

  function ChangesFor(s: Subscription, sources: set<EventSource>): set<SubscriptionChange> {
    set source | source in sources :: SubscriptionChange(s.group, s.id, source)
  }

  method AddChanges(changes: set<SubscriptionChange>, s: Subscription, sources: set<EventSource>)
    returns (r: set<SubscriptionChange>)
    ensures r == changes + ChangesFor(s, sources)
  {
    r := changes;
    var remaining := sources;
    while remaining != {}
      invariant remaining <= sources && r == changes + ChangesFor(s, sources - remaining)
      decreases |remaining|
    {
      var source :| source in remaining;
      remaining := remaining - {source};
      r := r + {SubscriptionChange(s.group, s.id, source)};
    }
    assert sources - {} == sources;
  }

  /** What a subscription has that the other list does not give its key. */
  function Extra(s: Subscription, other: map<Key, Subscription>): set<EventSource> {
    ToSet(s.eventSources) - if s.SubscriptionKey() in other then ToSet(other[s.SubscriptionKey()].eventSources) else {}
  }

  /** One of the first `n` has the pair beyond what `other` gives its key; `shared` tells whether it gives any. */
  ghost predicate Beyond(
    c: SubscriptionChange, subscriptions: seq<Subscription>, other: map<Key, Subscription>, shared: bool, n: nat)
    requires n <= |subscriptions|
  {
    exists i :: 0 <= i < n && BeyondAt(c, subscriptions[i], other, shared)
  }

  ghost predicate BeyondAt(c: SubscriptionChange, s: Subscription, other: map<Key, Subscription>, shared: bool) {
    && s.SubscriptionKey() == c.SubscriberKey() && (s.SubscriptionKey() in other) == shared
    && c.eventSource in Extra(s, other)
  }

  /** One of the first `n` has lost the pair that `other` gives its key. */
  ghost predicate Lost(c: SubscriptionChange, subscriptions: seq<Subscription>, other: map<Key, Subscription>, n: nat)
    requires n <= |subscriptions|
  {
    exists i :: 0 <= i < n && LostAt(c, subscriptions[i], other)
  }

  ghost predicate LostAt(c: SubscriptionChange, s: Subscription, other: map<Key, Subscription>) {
    s.SubscriptionKey() == c.SubscriberKey() && s.SubscriptionKey() in other
    && c.eventSource in ToSet(other[s.SubscriptionKey()].eventSources) - ToSet(s.eventSources)
  }

  lemma BeyondIsDifference(
      existing: seq<Subscription>, updated: seq<Subscription>, c: SubscriptionChange)
    requires OnePerKey(existing) && OnePerKey(updated)
    ensures Beyond(c, updated, ByKey(existing), false, |updated|)
        || Beyond(c, updated, ByKey(existing), true, |updated|)
        <==> c in Pairs(updated) - Pairs(existing)
  {
    ByKeyFinds(existing);
    var other := ByKey(existing);
    forall i | 0 <= i < |updated| && updated[i].SubscriptionKey() == c.SubscriberKey()
      ensures c.eventSource in Extra(updated[i], other) ==> c in Pairs(updated) - Pairs(existing)
    {
      assert updated[i] in updated;
    }
    if c in Pairs(updated) - Pairs(existing) {
      var s :| s in updated && s.SubscriptionKey() == c.SubscriberKey() && c.eventSource in s.eventSources;
      var i :| 0 <= i < |updated| && updated[i] == s;
      assert BeyondAt(c, updated[i], other, s.SubscriptionKey() in other);
    }
  }

  lemma LostIsBeyond(existing: seq<Subscription>, updated: seq<Subscription>, c: SubscriptionChange)
    requires OnePerKey(existing) && OnePerKey(updated)
    ensures Lost(c, updated, ByKey(existing), |updated|) <==> Beyond(c, existing, ByKey(updated), true, |existing|)
  {
    ByKeyFinds(existing);
    ByKeyFinds(updated);
    if Lost(c, updated, ByKey(existing), |updated|) {
      var i :| 0 <= i < |updated| && LostAt(c, updated[i], ByKey(existing));
      var s := ByKey(existing)[c.SubscriberKey()];
      assert updated[i] in updated;
      var j :| 0 <= j < |existing| && existing[j] == s;
      assert BeyondAt(c, existing[j], ByKey(updated), true);
    }
    if Beyond(c, existing, ByKey(updated), true, |existing|) {
      var j :| 0 <= j < |existing| && BeyondAt(c, existing[j], ByKey(updated), true);
      var s := ByKey(updated)[c.SubscriberKey()];
      assert existing[j] in existing;
      var i :| 0 <= i < |updated| && updated[i] == s;
      assert LostAt(c, updated[i], ByKey(existing));
    }
  }

  lemma BeyondNext(
    c: SubscriptionChange, subscriptions: seq<Subscription>, other: map<Key, Subscription>, shared: bool, n: nat)
    requires n < |subscriptions|
    ensures Beyond(c, subscriptions, other, shared, n + 1)
        <==> Beyond(c, subscriptions, other, shared, n) || BeyondAt(c, subscriptions[n], other, shared)
  {
  }

  lemma LostNext(
    c: SubscriptionChange, subscriptions: seq<Subscription>, other: map<Key, Subscription>, n: nat)
    requires n < |subscriptions|
    ensures Lost(c, subscriptions, other, n + 1)
        <==> Lost(c, subscriptions, other, n) || LostAt(c, subscriptions[n], other)
  {
  }

  /** The pairs of subscriptions whose key the other list does not have. */
  method Unshared(
      subscriptions: seq<Subscription>, other: map<Key, Subscription>) returns (changes: set<SubscriptionChange>)
    ensures forall c :: c in changes <==> Beyond(c, subscriptions, other, false, |subscriptions|)
  {
    changes := {};
    for i := 0 to |subscriptions|
      invariant forall c :: c in changes <==> Beyond(c, subscriptions, other, false, i)
    {
      var s := subscriptions[i];
      ghost var before := changes;
      if s.SubscriptionKey() !in other {
        changes := AddChanges(changes, s, ToSet(s.eventSources));
      }
      forall c ensures c in changes <==> Beyond(c, subscriptions, other, false, i + 1) {
        BeyondNext(c, subscriptions, other, false, i);
      }
    }
  }

  /** What subscriptions both lists have gained and lost. */
  method Shared(updated: seq<Subscription>, existing: map<Key, Subscription>)
    returns (gained: set<SubscriptionChange>, lost: set<SubscriptionChange>)
    ensures forall c :: c in gained <==> Beyond(c, updated, existing, true, |updated|)
    ensures forall c :: c in lost <==> Lost(c, updated, existing, |updated|)
  {
    gained, lost := {}, {};
    for i := 0 to |updated|
      invariant forall c :: c in gained <==> Beyond(c, updated, existing, true, i)
      invariant forall c :: c in lost <==> Lost(c, updated, existing, i)
    {
      var s := updated[i];
      if s.SubscriptionKey() in existing {
        var existingSources := ToSet(existing[s.SubscriptionKey()].eventSources);
        var updatedSources := ToSet(s.eventSources);
        gained := AddChanges(gained, s, updatedSources - existingSources);
        lost := AddChanges(lost, s, existingSources - updatedSources);
      }
      forall c
        ensures c in gained <==> Beyond(c, updated, existing, true, i + 1)
        ensures c in lost <==> Lost(c, updated, existing, i + 1)
      {
        BeyondNext(c, updated, existing, true, i);
        LostNext(c, updated, existing, i);
      }
    }
  }

  /**
   The changes that lead from one list to the other, and nothing more: revoking and allocating
   turns the old pairs into the new ones, and no pair is in both sets.
   */
  method Diff(existing: seq<Subscription>, updated: seq<Subscription>)
    returns (allocations: set<SubscriptionChange>, revocations: set<SubscriptionChange>)
    requires OnePerKey(existing) && OnePerKey(updated)
    ensures allocations == Pairs(updated) - Pairs(existing)
    ensures revocations == Pairs(existing) - Pairs(updated)
    ensures (Pairs(existing) - revocations) + allocations == Pairs(updated) && allocations !! revocations
  {
    var existingMap, updatedMap := ByKey(existing), ByKey(updated);
    allocations := Unshared(updated, existingMap);
    revocations := Unshared(existing, updatedMap);
    var gained, lost := Shared(updated, existingMap);
    allocations, revocations := allocations + gained, revocations + lost;
    forall c
      ensures c in allocations <==> c in Pairs(updated) - Pairs(existing)
      ensures c in revocations <==> c in Pairs(existing) - Pairs(updated)
    {
      BeyondIsDifference(existing, updated, c);
      BeyondIsDifference(updated, existing, c);
      LostIsBeyond(existing, updated, c);
    }
  }

  // Carrying the difference out.

  datatype Delegate = Delegate(source: EventSource)

  class EventSubscriptionConsumer {
    const group: string
    const id: string
    var delegates: map<EventSource, Delegate>

    constructor (group: string, id: string)
      ensures this.group == group && this.id == id && delegates == map[]
    {
      this.group, this.id := group, id;
      delegates := map[];
    }

    /** A source accepted again keeps the delegate it has. */
    method Accept(source: EventSource)
      modifies this
      ensures delegates ==
        if source in old(delegates) then old(delegates) else old(delegates)[source := Delegate(source)]
    {
      if source !in delegates {
        delegates := delegates[source := Delegate(source)];
      }
    }

    method Withdraw(source: EventSource)
      modifies this
      ensures delegates == old(delegates) - {source}
    {
      if source in delegates {
        delegates := delegates - {source};
      }
    }
  }

  /** The sources changes name for a key. */
  function Named(changes: set<SubscriptionChange>, key: Key): (r: set<EventSource>)
    ensures forall source :: source in r <==> SubscriptionChange(key.group, key.id, source) in changes
  {
    set c | c in changes && c.SubscriberKey() == key :: c.eventSource
  }

  type Subscribers = map<Key, EventSubscriptionConsumer>

  /** Distinct keys are distinct objects. */
  ghost predicate Separate(subscribers: Subscribers) {
    forall a, b :: a in subscribers && b in subscribers && subscribers[a] == subscribers[b] ==> a == b
  }

  method RevokeOne(subscribers: Subscribers, change: SubscriptionChange)
    requires Separate(subscribers)
    modifies subscribers.Values
    ensures forall key :: key in subscribers ==>
      subscribers[key].delegates.Keys == old(subscribers[key].delegates.Keys) - Named({change}, key)
  {
    if change.SubscriberKey() in subscribers {
      var subscriber := subscribers[change.SubscriberKey()];
      subscriber.Withdraw(change.eventSource);
    }
  }

  method AllocateOne(subscribers: Subscribers, change: SubscriptionChange)
    requires Separate(subscribers)
    modifies subscribers.Values
    ensures forall key :: key in subscribers ==>
      subscribers[key].delegates.Keys == old(subscribers[key].delegates.Keys) + Named({change}, key)
  {
    if change.SubscriberKey() in subscribers {
      var subscriber := subscribers[change.SubscriberKey()];
      subscriber.Accept(change.eventSource);
    }
  }

  lemma NamedSplit(done: set<SubscriptionChange>, change: SubscriptionChange)
    ensures forall key :: Named(done + {change}, key) == Named(done, key) + Named({change}, key)
  {
  }

  method Revoke(subscribers: Subscribers, changes: set<SubscriptionChange>)
    requires Separate(subscribers)
    modifies subscribers.Values
    ensures forall key :: key in subscribers ==>
      subscribers[key].delegates.Keys == old(subscribers[key].delegates.Keys) - Named(changes, key)
  {
    var remaining, done := changes, {};
    while remaining != {}
      invariant remaining + done == changes
      invariant forall key :: key in subscribers ==>
        subscribers[key].delegates.Keys == old(subscribers[key].delegates.Keys) - Named(done, key)
      decreases |remaining|
    {
      var change :| change in remaining;
      NamedSplit(done, change);
      RevokeOne(subscribers, change);
      remaining, done := remaining - {change}, done + {change};
    }
  }

  method Allocate(subscribers: Subscribers, changes: set<SubscriptionChange>)
    requires Separate(subscribers)
    modifies subscribers.Values
    ensures forall key :: key in subscribers ==>
      subscribers[key].delegates.Keys == old(subscribers[key].delegates.Keys) + Named(changes, key)
  {
    var remaining, done := changes, {};
    while remaining != {}
      invariant remaining + done == changes
      invariant forall key :: key in subscribers ==>
        subscribers[key].delegates.Keys == old(subscribers[key].delegates.Keys) + Named(done, key)
      decreases |remaining|
    {
      var change :| change in remaining;
      NamedSplit(done, change);
      AllocateOne(subscribers, change);
      remaining, done := remaining - {change}, done + {change};
    }
  }

  class DefaultEventSubscriptionObserver {
    var existingSubscriptions: seq<Subscription>

    constructor ()
      ensures existingSubscriptions == []
    {
      existingSubscriptions := [];
    }

    /** Subscribers that live elsewhere are passed over. */
    method Synchronise(subscribers: Subscribers, updated: seq<Subscription>)
      requires Separate(subscribers) && OnePerKey(existingSubscriptions) && OnePerKey(updated)
      modifies this, subscribers.Values
      ensures existingSubscriptions == updated
      ensures forall key :: key in subscribers ==>
        var was, now := SourcesOf(old(existingSubscriptions), key), SourcesOf(updated, key);
        subscribers[key].delegates.Keys == (old(subscribers[key].delegates.Keys) - (was - now)) + (now - was)
    {
      var allocations, revocations := Diff(existingSubscriptions, updated);
      Revoke(subscribers, revocations);
      Allocate(subscribers, allocations);
      forall key
        ensures Named(revocations, key) == SourcesOf(existingSubscriptions, key) - SourcesOf(updated, key)
        ensures Named(allocations, key) == SourcesOf(updated, key) - SourcesOf(existingSubscriptions, key)
      {
      }
      existingSubscriptions := updated;
    }
  }
}
