/**
 Subscribers, subscriptions and the in-memory subscription store
 (processing/broker/strategies/distributed/subscriptions/stores/state/memory.py).
 */
module Subscriptions {
  import opened Prelude
  import opened Events

  datatype Key = Key(group: string, id: string)

  datatype Subscriber = Subscriber(group: string, id: string, nodeId: string, requests: seq<EventSource>) {
    function SubscriberKey(): Key { Key(group, id) }
  }

  datatype Subscription = Subscription(group: string, id: string, nodeId: string, eventSources: seq<EventSource>) {
    function SubscriptionKey(): Key { Key(group, id) }
  }

  datatype Change =
    | AddChange(subscription: Subscription)
    | ReplaceChange(subscription: Subscription)
    | RemoveChange(subscription: Subscription)
  {
    function ChangeKey(): Key { subscription.SubscriptionKey() }
  }

  datatype StoreError =
    | CannotAddExisting
    | CannotRemoveMissing
    | CannotReplaceMissing
    | MultipleChangesForKey

  type Table = map<Key, Subscription>

  ghost predicate Keyed(table: Table) {
    forall key :: key in table ==> table[key].SubscriptionKey() == key
  }

  /** The store writes its own node id into what it stores. */
  function Owned(subscription: Subscription, nodeId: string): Subscription {
    subscription.(nodeId := nodeId)
  }

  function Refusal(table: Table, change: Change): Option<StoreError> {
    match change
    case AddChange(s) => if s.SubscriptionKey() in table then Some(CannotAddExisting) else None
    case ReplaceChange(s) => if s.SubscriptionKey() in table then None else Some(CannotReplaceMissing)
    case RemoveChange(s) => if s.SubscriptionKey() in table then None else Some(CannotRemoveMissing)
  }

  function Changed(table: Table, nodeId: string, change: Change): Table {
    match change
    case RemoveChange(s) => table - {s.SubscriptionKey()}
    case _ => table[change.ChangeKey() := Owned(change.subscription, nodeId)]
  }

  /** Applying changes one by one, up to the first that is refused. */
  function Applied(table: Table, nodeId: string, changes: seq<Change>): (Table, Option<StoreError>)
    decreases |changes|
  {
    if changes == [] then (table, None)
    else if Refusal(table, changes[0]).Some? then (table, Refusal(table, changes[0]))
    else Applied(Changed(table, nodeId, changes[0]), nodeId, changes[1..])
  }

  ghost predicate DistinctKeys(changes: seq<Change>) {
    forall i, j :: 0 <= i < j < |changes| ==> changes[i].ChangeKey() != changes[j].ChangeKey()
  }

  function KeysOf(changes: seq<Change>): (r: set<Key>)
    ensures forall key :: key in r <==> exists change :: change in changes && change.ChangeKey() == key
  {
    set change | change in changes :: change.ChangeKey()
  }

  lemma {:induction false} KeysCount(changes: seq<Change>)
    ensures |KeysOf(changes)| <= |changes|
    ensures |KeysOf(changes)| == |changes| <==> DistinctKeys(changes)
  {
    if changes != [] {
      var rest, last := changes[..|changes| - 1], changes[|changes| - 1];
      KeysCount(rest);
      assert changes == rest + [last];
      KeysGrow(rest, last);
      DistinctGrow(rest, last);
      assert last.ChangeKey() in KeysOf(rest) ==> KeysOf(changes) == KeysOf(rest);
    }
  }

  lemma KeysGrow(rest: seq<Change>, last: Change)
    ensures KeysOf(rest + [last]) == KeysOf(rest) + {last.ChangeKey()}
  {
  }

  lemma DistinctGrow(rest: seq<Change>, last: Change)
    ensures DistinctKeys(rest + [last]) <==> DistinctKeys(rest) && last.ChangeKey() !in KeysOf(rest)
  {
    var all := rest + [last];
    assert forall i :: 0 <= i < |rest| ==> all[i] == rest[i] && rest[i] in rest;
    if last.ChangeKey() in KeysOf(rest) {
      var other :| other in rest && other.ChangeKey() == last.ChangeKey();
      var i :| 0 <= i < |rest| && rest[i] == other;
      assert all[i].ChangeKey() == all[|rest|].ChangeKey();
    }
    if DistinctKeys(all) {
      forall i, j | 0 <= i < j < |rest| ensures rest[i].ChangeKey() != rest[j].ChangeKey() {
        assert all[i].ChangeKey() != all[j].ChangeKey();
      }
    }
  }

  // With one change per key, the order of the changes leaves no trace.

  /** Every change is one the table accepts. */
  ghost predicate Acceptable(table: Table, changes: seq<Change>) {
    forall change :: change in changes ==> Refusal(table, change) == None
  }

  /** The table after the changes, key by key. */
  ghost predicate Outcome(table: Table, nodeId: string, changes: seq<Change>, after: Table) {
    forall key ::
      && (key !in KeysOf(changes) ==> (key in after <==> key in table) && (key in table ==> after[key] == table[key]))
      && (forall change :: change in changes && change.ChangeKey() == key ==>
            if change.RemoveChange? then key !in after
            else key in after && after[key] == Owned(change.subscription, nodeId))
  }

  lemma RestAcceptable(table: Table, nodeId: string, changes: seq<Change>)
    requires DistinctKeys(changes) && Acceptable(table, changes) && changes != []
    ensures Refusal(table, changes[0]) == None
    ensures DistinctKeys(changes[1..]) && Acceptable(Changed(table, nodeId, changes[0]), changes[1..])
    ensures forall change :: change in changes[1..] ==> change.ChangeKey() != changes[0].ChangeKey()
  {
    var first, rest := changes[0], changes[1..];
    assert first in changes;
    forall change | change in rest
      ensures change.ChangeKey() != first.ChangeKey() && Refusal(Changed(table, nodeId, first), change) == None
    {
      var i :| 0 <= i < |rest| && rest[i] == change;
      assert changes[i + 1] == change && changes[0] == first;
      assert change in changes;
    }
  }

  lemma {:induction false} AppliedOutcome(table: Table, nodeId: string, changes: seq<Change>)
    requires DistinctKeys(changes) && Acceptable(table, changes)
    ensures Applied(table, nodeId, changes).1 == None
    ensures Outcome(table, nodeId, changes, Applied(table, nodeId, changes).0)
    decreases |changes|
  {
    if changes != [] {
      var first, rest := changes[0], changes[1..];
      var next := Changed(table, nodeId, first);
      RestAcceptable(table, nodeId, changes);
      AppliedOutcome(next, nodeId, rest);
      OutcomeCons(table, nodeId, first, rest, Applied(next, nodeId, rest).0);
      assert changes == [first] + rest;
    }
  }

  lemma OutcomeCons(table: Table, nodeId: string, first: Change, rest: seq<Change>, after: Table)
    requires first.ChangeKey() !in KeysOf(rest)
    requires Outcome(Changed(table, nodeId, first), nodeId, rest, after)
    ensures Outcome(table, nodeId, [first] + rest, after)
  {
  }

  class InMemoryEventSubscriptionStateStore {
    const nodeId: string
    var subscriptions: Table

    constructor (nodeId: string)
      ensures this.nodeId == nodeId && subscriptions == map[]
    {
      this.nodeId := nodeId;
      subscriptions := map[];
    }

    method Add(subscription: Subscription) returns (r: Result<(), StoreError>)
      modifies this
      ensures r.Success? <==> subscription.SubscriptionKey() !in old(subscriptions)
      ensures r.Failure? ==> r.error == CannotAddExisting && subscriptions == old(subscriptions)
      ensures r.Success? ==>
        subscriptions == old(subscriptions)[subscription.SubscriptionKey() := Owned(subscription, nodeId)]
    {
      if subscription.SubscriptionKey() in subscriptions {
        return Failure(CannotAddExisting);
      }
      subscriptions := subscriptions[subscription.SubscriptionKey() :=
        Subscription(subscription.group, subscription.id, nodeId, subscription.eventSources)];
      r := Success(());
    }

    method Remove(subscription: Subscription) returns (r: Result<(), StoreError>)
      modifies this
      ensures r.Success? <==> subscription.SubscriptionKey() in old(subscriptions)
      ensures r.Failure? ==> r.error == CannotRemoveMissing && subscriptions == old(subscriptions)
      ensures r.Success? ==> subscriptions == old(subscriptions) - {subscription.SubscriptionKey()}
    {
      if subscription.SubscriptionKey() !in subscriptions {
        return Failure(CannotRemoveMissing);
      }
      subscriptions := subscriptions - {subscription.SubscriptionKey()};
      r := Success(());
    }

    method Replace(subscription: Subscription) returns (r: Result<(), StoreError>)
      modifies this
      ensures r.Success? <==> subscription.SubscriptionKey() in old(subscriptions)
      ensures r.Failure? ==> r.error == CannotReplaceMissing && subscriptions == old(subscriptions)
      ensures r.Success? ==>
        subscriptions == old(subscriptions)[subscription.SubscriptionKey() := Owned(subscription, nodeId)]
    {
      if subscription.SubscriptionKey() !in subscriptions {
        return Failure(CannotReplaceMissing);
      }
      subscriptions := subscriptions[subscription.SubscriptionKey() :=
        Subscription(subscription.group, subscription.id, nodeId, subscription.eventSources)];
      r := Success(());
    }

    /** Repeated keys are refused before anything changes; a later refusal keeps what came before it. */
    method Apply(changes: seq<Change>) returns (r: Result<(), StoreError>)
      modifies this
      ensures !DistinctKeys(changes) ==> r == Failure(MultipleChangesForKey) && subscriptions == old(subscriptions)
      ensures DistinctKeys(changes) ==>
        var (after, refusal) := Applied(old(subscriptions), nodeId, changes);
        subscriptions == after && r == if refusal.Some? then Failure(refusal.value) else Success(())
    {
      KeysCount(changes);
      if |KeysOf(changes)| != |changes| {
        return Failure(MultipleChangesForKey);
      }
      ghost var whole := Applied(subscriptions, nodeId, changes);
      for i := 0 to |changes|
        invariant Applied(subscriptions, nodeId, changes[i..]) == whole
      {
        assert changes[i..][0] == changes[i] && changes[i..][1..] == changes[i + 1..];
        match changes[i] {
          case AddChange(s) => r := Add(s);
          case ReplaceChange(s) => r := Replace(s);
          case RemoveChange(s) => r := Remove(s);
        }
        if r.Failure? {
          return r;
        }
      }
      r := Success(());
    }
  }
}
