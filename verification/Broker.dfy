/**
 The distributed broker as a whole: subscribers join and expire, a coordinator distributes,
 and nodes synchronise, in any interleaving. Every subscriber lives on one node; a distribution
 happens under the leader's lock, as one step. A node lists the store, carries out the changes
 one by one and then remembers what it listed; distributions and other nodes may come in between.
 */
module Broker {
  import opened Prelude
  import opened Events
  import opened Subscriptions
  import opened Allocations
  import opened Difference

  /** A synchronisation in progress: what the node listed, and the changes it has yet to carry out. */
  datatype Synchronisation = Synchronisation(listed: Allocation, remaining: set<SubscriptionChange>)

  /**
   `seen` is what each node listed for its last complete synchronisation. `recent` are the nodes
   whose synchronisation in progress listed the store as it is, `current` those that completed
   one for the store as it is. `live` and `targets` are those of the last distribution.
   */
  datatype State = State(
    store: Allocation,
    live: set<Subscriber>,
    targets: map<string, seq<EventSource>>,
    seen: seq<Allocation>,
    synchronisations: map<nat, Synchronisation>,
    delegates: map<Key, set<EventSource>>,
    recent: set<nat>,
    current: set<nat>)

  datatype Step =
    | Distribute(live: set<Subscriber>, targets: map<string, seq<EventSource>>, after: Allocation)
    | Read(node: nat)
    | CarryOut(node: nat, change: SubscriptionChange)
    | Finish(node: nat)

  /** Where every subscriber lives. Live subscribers come and go as the distributions say. */
  type Homes = map<Key, nat>

  predicate Allocates(listed: Allocation, change: SubscriptionChange) {
    change.eventSource in Sources(listed, change.SubscriberKey())
  }

  function ChangeOf(key: Key, source: EventSource): SubscriptionChange {
    SubscriptionChange(key.group, key.id, source)
  }

  /** What the lists differ in for the node's own subscribers. */
  function Changes(homes: Homes, node: nat, was: Allocation, now: Allocation): set<SubscriptionChange> {
    set key, source |
      key in homes && homes[key] == node && source in Sources(was, key) + Sources(now, key)
      && (source in Sources(was, key)) != (source in Sources(now, key)) :: ChangeOf(key, source)
  }

  ghost predicate Possible(homes: Homes, nodes: nat, s: State, step: Step) {
    match step
    case Distribute(live, targets, after) =>
      UniqueKeys(live) && (forall x :: x in live ==> x.SubscriberKey() in homes && homes[x.SubscriberKey()] < nodes)
      && Distributed(live, s.store, after, targets)
    case Read(node) => node < nodes == |s.seen| && node !in s.synchronisations
    case CarryOut(node, change) =>
      && node in s.synchronisations && change in s.synchronisations[node].remaining
      && change.SubscriberKey() in s.delegates
      && (Allocates(s.synchronisations[node].listed, change) ==>
            forall other :: other in s.synchronisations[node].remaining ==>
              Allocates(s.synchronisations[node].listed, other))
    case Finish(node) =>
      node < nodes == |s.seen| && node in s.synchronisations && s.synchronisations[node].remaining == {}
  }

  ghost function Take(homes: Homes, nodes: nat, s: State, step: Step): State
    requires Possible(homes, nodes, s, step)
  {
    match step
    case Distribute(live, targets, after) =>
      s.(store := after, live := live, targets := targets, recent := {}, current := {})
    case Read(node) =>
      s.(synchronisations := s.synchronisations[
           node := Synchronisation(s.store, Changes(homes, node, s.seen[node], s.store))],
         recent := s.recent + {node})
    case CarryOut(node, change) =>
      var synchronisation := s.synchronisations[node];
      var held := s.delegates[change.SubscriberKey()];
      s.(synchronisations := s.synchronisations[
           node := synchronisation.(remaining := synchronisation.remaining - {change})],
         delegates := s.delegates[
           change.SubscriberKey() := if Allocates(synchronisation.listed, change) then held + {change.eventSource}
                         else held - {change.eventSource}])
    case Finish(node) =>
      s.(seen := s.seen[node := s.synchronisations[node].listed],
         synchronisations := s.synchronisations - {node},
         recent := s.recent - {node},
         current := if node in s.recent then s.current + {node} else s.current - {node})
  }

  function Start(homes: Homes, nodes: nat): State {
    State(map[], {}, map[], seq(nodes, _ => map[]), map[], map key | key in homes :: {}, {}, {})
  }

  ghost predicate Runs(homes: Homes, nodes: nat, s: State, steps: seq<Step>)
    decreases |steps|
  {
    steps == []
    || (Possible(homes, nodes, s, steps[0]) && Runs(homes, nodes, Take(homes, nodes, s, steps[0]), steps[1..]))
  }

  ghost function After(homes: Homes, nodes: nat, s: State, steps: seq<Step>): State
    requires Runs(homes, nodes, s, steps)
    decreases |steps|
  {
    if steps == [] then s else After(homes, nodes, Take(homes, nodes, s, steps[0]), steps[1..])
  }

  // The invariant.

  /** What a subscriber should hold: what its node last saw, except for the changes already carried out. */
  predicate Due(s: State, node: nat, key: Key, source: EventSource)
    requires node < |s.seen|
  {
    if node in s.synchronisations && ChangeOf(key, source) !in s.synchronisations[node].remaining
    then source in Sources(s.synchronisations[node].listed, key)
    else source in Sources(s.seen[node], key)
  }

  /** Every subscriber holds exactly that. */
  ghost predicate Faithful(homes: Homes, s: State) {
    forall key :: key in homes ==> FaithfulAt(homes, s, key)
  }

  ghost predicate FaithfulAt(homes: Homes, s: State, key: Key)
    requires key in homes
  {
    && key in s.delegates && homes[key] < |s.seen|
    && forall source :: source in s.delegates[key] <==> Due(s, homes[key], key, source)
  }

  /** What remains is what the lists differ in. */
  ghost predicate Pending(homes: Homes, s: State) {
    forall node :: node in s.synchronisations ==> PendingAt(homes, s, node)
  }

  ghost predicate PendingAt(homes: Homes, s: State, node: nat)
    requires node in s.synchronisations
  {
    node < |s.seen| && s.synchronisations[node].remaining
      <= Changes(homes, node, s.seen[node], s.synchronisations[node].listed)
  }

  ghost predicate Dated(s: State) {
    && (forall node :: node in s.recent ==>
          node in s.synchronisations && s.synchronisations[node].listed == s.store)
    && (forall node :: node in s.current ==>
          && node < |s.seen| && s.seen[node] == s.store
          && (node in s.synchronisations ==> s.synchronisations[node].listed == s.store))
  }

  ghost predicate Invariant(homes: Homes, nodes: nat, s: State) {
    && s.delegates.Keys == homes.Keys
    && |s.seen| == nodes
    && Faithful(homes, s) && Pending(homes, s) && Dated(s)
    && Exclusive(s.store)
    && Covered(s.live, s.store, s.targets)
    && (forall key :: key in s.store ==> key in homes)
    && OnlyRequesters(s.live, s.store, s.targets)
  }

  ghost predicate Settled(homes: Homes, nodes: nat) {
    forall key :: key in homes ==> homes[key] < nodes
  }

  lemma StepKeepsInvariant(homes: Homes, nodes: nat, s: State, step: Step)
    requires Settled(homes, nodes) && Invariant(homes, nodes, s) && Possible(homes, nodes, s, step)
    ensures Invariant(homes, nodes, Take(homes, nodes, s, step))
  {
    match step
    case Distribute(live, targets, after) =>
      DistributionKeepsExclusive(live, s.store, after, targets);
      DistributionCovers(live, s.store, after, targets);
      OnlyEligible(live, s.store, after, targets);
      forall key | key in after ensures key in homes {
        assert Requests(live, targets, key);
      }
      DistributeKeeps(homes, s, Take(homes, nodes, s, step));
    case Read(node) => ReadKeeps(homes, nodes, s, node);
    case CarryOut(node, change) => CarryOutKeeps(homes, nodes, s, node, change);
    case Finish(node) => FinishKeeps(homes, nodes, s, node);
  }

  lemma DistributeKeeps(homes: Homes, s: State, s': State)
    requires Faithful(homes, s) && Pending(homes, s)
    requires s'.seen == s.seen && s'.delegates == s.delegates && s'.synchronisations == s.synchronisations
    requires s'.recent == {} && s'.current == {}
    ensures Faithful(homes, s') && Pending(homes, s') && Dated(s')
  {
    forall key | key in homes ensures FaithfulAt(homes, s', key) {
      assert FaithfulAt(homes, s, key);
      assert forall source :: Due(s', homes[key], key, source) == Due(s, homes[key], key, source);
    }
    forall node | node in s'.synchronisations ensures PendingAt(homes, s', node) {
      assert PendingAt(homes, s, node);
    }
  }

  lemma ReadKeeps(homes: Homes, nodes: nat, s: State, node: nat)
    requires Faithful(homes, s) && Pending(homes, s) && Dated(s) && Possible(homes, nodes, s, Read(node))
    ensures var s' := Take(homes, nodes, s, Read(node)); Faithful(homes, s') && Pending(homes, s') && Dated(s')
  {
    var s' := Take(homes, nodes, s, Read(node));
    forall key | key in homes ensures FaithfulAt(homes, s', key) {
      assert FaithfulAt(homes, s, key);
      forall source ensures Due(s', homes[key], key, source) == Due(s, homes[key], key, source) {
        if homes[key] == node && ChangeOf(key, source) !in s'.synchronisations[node].remaining {
          assert source in Sources(s.seen[node], key) <==> source in Sources(s.store, key);
        }
      }
    }
    forall other | other in s'.synchronisations ensures PendingAt(homes, s', other) {
      assert other != node ==> PendingAt(homes, s, other);
    }
  }

  lemma CarryOutKeeps(homes: Homes, nodes: nat, s: State, node: nat, change: SubscriptionChange)
    requires s.delegates.Keys == homes.Keys && Possible(homes, nodes, s, CarryOut(node, change))
    requires Faithful(homes, s) && Pending(homes, s) && Dated(s)
    ensures var s' := Take(homes, nodes, s, CarryOut(node, change));
      Faithful(homes, s') && Pending(homes, s') && Dated(s')
  {
    var s' := Take(homes, nodes, s, CarryOut(node, change));
    forall key | key in homes ensures FaithfulAt(homes, s', key) {
      assert FaithfulAt(homes, s, key);
      forall source ensures source in s'.delegates[key] <==> Due(s', homes[key], key, source) {
        if key == change.SubscriberKey() && source == change.eventSource {
          assert PendingAt(homes, s, node);
        } else {
          assert ChangeOf(key, source) != change;
        }
      }
    }
    forall other | other in s'.synchronisations ensures PendingAt(homes, s', other) {
      assert PendingAt(homes, s, other);
    }
  }

  lemma FinishKeeps(homes: Homes, nodes: nat, s: State, node: nat)
    requires Faithful(homes, s) && Pending(homes, s) && Dated(s) && Possible(homes, nodes, s, Finish(node))
    ensures var s' := Take(homes, nodes, s, Finish(node)); Faithful(homes, s') && Pending(homes, s') && Dated(s')
  {
    var s' := Take(homes, nodes, s, Finish(node));
    forall key | key in homes ensures FaithfulAt(homes, s', key) {
      assert FaithfulAt(homes, s, key);
      assert forall source :: Due(s', homes[key], key, source) == Due(s, homes[key], key, source);
    }
    forall other | other in s'.synchronisations ensures PendingAt(homes, s', other) {
      assert PendingAt(homes, s, other);
    }
  }

  lemma StartInvariant(homes: Homes, nodes: nat)
    requires Settled(homes, nodes)
    ensures Invariant(homes, nodes, Start(homes, nodes))
  {
    var s := Start(homes, nodes);
    forall key ensures key in s.store <==> Requests(s.live, s.targets, key) {
    }
  }

  lemma {:induction false} RunKeepsInvariant(homes: Homes, nodes: nat, s: State, steps: seq<Step>)
    requires Settled(homes, nodes) && Invariant(homes, nodes, s) && Runs(homes, nodes, s, steps)
    ensures Invariant(homes, nodes, After(homes, nodes, s, steps))
    decreases |steps|
  {
    if steps != [] {
      StepKeepsInvariant(homes, nodes, s, steps[0]);
      RunKeepsInvariant(homes, nodes, Take(homes, nodes, s, steps[0]), steps[1..]);
    }
  }

  // What it is for.

  /** Of all subscribers of the group, wherever they live, exactly one holds the source. */
  ghost predicate HeldExactlyOnce(s: State, group: string, source: EventSource) {
    exists key: Key :: key.group == group && key in s.delegates && source in s.delegates[key]
      && forall other: Key :: other.group == group && other in s.delegates && source in s.delegates[other] ==>
        other == key
  }

  /**
   Once every node has listed the store and carried its changes out since the last distribution,
   each source its group's target
   requests is held by exactly one of the group's subscribers, and no other source is held.
   */
  lemma SynchronisedBrokerIsExact(
    homes: Homes, nodes: nat, steps: seq<Step>, group: string, source: EventSource)
    requires Settled(homes, nodes) && Runs(homes, nodes, Start(homes, nodes), steps)
    requires forall node: nat :: node < nodes ==> node in After(homes, nodes, Start(homes, nodes), steps).current
    ensures var s := After(homes, nodes, Start(homes, nodes), steps);
      if group in s.targets && source in s.targets[group] then HeldExactlyOnce(s, group, source)
      else forall key: Key :: key.group == group && key in s.delegates ==> source !in s.delegates[key]
  {
    var s := After(homes, nodes, Start(homes, nodes), steps);
    StartInvariant(homes, nodes);
    RunKeepsInvariant(homes, nodes, Start(homes, nodes), steps);
    DelegatesAreStored(homes, nodes, s);
    if group in s.targets && source in s.targets[group] {
      OneHolder(homes, s, group, source);
    } else {
      forall key: Key | key.group == group && key in s.delegates ensures source !in s.delegates[key] {
        NoHolder(homes, s, key, source);
      }
    }
  }

  lemma DelegatesAreStored(homes: Homes, nodes: nat, s: State)
    requires Settled(homes, nodes) && Invariant(homes, nodes, s)
    requires forall node: nat :: node < nodes ==> node in s.current
    ensures forall key :: key in homes ==> key in s.delegates && s.delegates[key] == Sources(s.store, key)
  {
    forall key | key in homes ensures key in s.delegates && s.delegates[key] == Sources(s.store, key) {
      assert homes[key] in s.current && FaithfulAt(homes, s, key);
    }
  }

  lemma OneHolder(homes: Homes, s: State, group: string, source: EventSource)
    requires s.delegates.Keys == homes.Keys && group in s.targets && source in s.targets[group]
    requires Exclusive(s.store) && Covered(s.live, s.store, s.targets) && forall key :: key in s.store ==> key in homes
    requires forall key :: key in homes ==> s.delegates[key] == Sources(s.store, key)
    ensures HeldExactlyOnce(s, group, source)
  {
    var keys := Eligible(s.live, group, s.targets[group]);
    assert HeldOnce(keys, s.store, source);
    var key :| key in keys && source in Sources(s.store, key);
    HeldInOnePlace(s.store, key, source);
    assert key.group == group && key in s.delegates && source in s.delegates[key];
  }

  lemma NoHolder(homes: Homes, s: State, key: Key, source: EventSource)
    requires s.delegates.Keys == homes.Keys && key in s.delegates
    requires s.delegates[key] == Sources(s.store, key)
    requires Covered(s.live, s.store, s.targets) && OnlyRequesters(s.live, s.store, s.targets)
    requires !(key.group in s.targets && source in s.targets[key.group])
    ensures source !in s.delegates[key]
  {
    assert key in s.store ==> Requests(s.live, s.targets, key);
    if key.group in s.targets {
      var keys := Eligible(s.live, key.group, s.targets[key.group]);
      assert key in s.store ==> key in keys;
      assert key in keys && source in Sources(s.store, key) ==> HeldBy(keys, s.store, source);
    }
  }

  /** The list a node reads from the store gives each key what the store holds for it. */
  lemma ListedSources(table: Table, listed: seq<Subscription>, key: Key)
    requires Keyed(table) && forall x :: x in listed <==> x in table.Values
    ensures SourcesOf(listed, key) == Sources(AllocationOf(table), key)
  {
    forall source ensures source in SourcesOf(listed, key) <==> source in Sources(AllocationOf(table), key) {
      if key in table {
        assert table[key] in table.Values;
      }
    }
  }

  /** The changes a node carries out are the allocations and revocations of the difference that are its own. */
  lemma ChangesAreTheDifference(
    homes: Homes, node: nat, was: Table, now: Table, existing: seq<Subscription>, updated: seq<Subscription>,
    change: SubscriptionChange)
    requires Keyed(was) && forall x :: x in existing <==> x in was.Values
    requires Keyed(now) && forall x :: x in updated <==> x in now.Values
    ensures change in Changes(homes, node, AllocationOf(was), AllocationOf(now)) <==>
      && change.SubscriberKey() in homes && homes[change.SubscriberKey()] == node
      && change in (Pairs(updated) - Pairs(existing)) + (Pairs(existing) - Pairs(updated))
  {
    var key := change.SubscriberKey();
    ListedSources(was, existing, key);
    ListedSources(now, updated, key);
    assert change == ChangeOf(key, change.eventSource);
    assert change in Pairs(existing) <==> change.eventSource in SourcesOf(existing, key);
    assert change in Pairs(updated) <==> change.eventSource in SourcesOf(updated, key);
  }
}
