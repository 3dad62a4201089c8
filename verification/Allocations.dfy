/**
 What a distribution of event sources over subscribers is meant to achieve, and what follows
 for runs of distributions (processing/broker/strategies/distributed/coordinator.py).
 */
module Allocations {
  import opened Prelude
  import opened Events
  import opened Subscriptions

  type Allocation = map<Key, seq<EventSource>>

  function AllocationOf(table: Table): Allocation {
    map key | key in table :: table[key].eventSources
  }

  function Sources(allocation: Allocation, key: Key): set<EventSource> {
    if key in allocation then ToSet(allocation[key]) else {}
  }

  ghost predicate UniqueKeys(live: set<Subscriber>) {
    forall a, b :: a in live && b in live && a.SubscriberKey() == b.SubscriberKey() ==> a == b
  }

  function Members(live: set<Subscriber>, group: string): set<Subscriber> {
    set s | s in live && s.group == group
  }

  function Groups(live: set<Subscriber>): set<string> {
    set s | s in live :: s.group
  }

  /** The subscribers of the group that make exactly the target request. */
  function Eligible(live: set<Subscriber>, group: string, target: seq<EventSource>): set<Key> {
    set s | s in live && s.group == group && s.requests == target :: s.SubscriberKey()
  }

  /** Some longest request made in the group. */
  ghost predicate IsTarget(live: set<Subscriber>, group: string, target: seq<EventSource>) {
    && (exists s :: s in live && s.group == group && s.requests == target)
    && forall s :: s in live && s.group == group ==> |s.requests| <= |target|
  }

  ghost predicate HeldBy(keys: set<Key>, allocation: Allocation, source: EventSource) {
    exists key :: key in keys && source in Sources(allocation, key)
  }

  /** Whoever held the source holds it still, and nobody else does. */
  ghost predicate Kept(keys: set<Key>, before: Allocation, after: Allocation, source: EventSource) {
    forall key :: key in keys ==> (source in Sources(after, key) <==> source in Sources(before, key))
  }

  ghost predicate HeldOnce(keys: set<Key>, allocation: Allocation, source: EventSource) {
    exists key :: key in keys && source in Sources(allocation, key)
      && forall other :: other in keys && source in Sources(allocation, other) ==> other == key
  }

  /** The sources a key has been newly given. */
  function Given(before: Allocation, after: Allocation, key: Key): set<EventSource> {
    Sources(after, key) - Sources(before, key)
  }

  /** How the target is spread over the eligible keys. */
  ghost predicate Spread(keys: set<Key>, target: seq<EventSource>, before: Allocation, after: Allocation) {
    && (forall key :: key in keys ==> key in after && NoDuplicates(after[key]) && Sources(after, key) <= ToSet(target))
    && (forall source :: source in target ==>
          if HeldBy(keys, before, source) then Kept(keys, before, after, source) else HeldOnce(keys, after, source))
    && (forall a, b :: a in keys && b in keys ==> |Given(before, after, a)| <= |Given(before, after, b)| + 1)
  }

  ghost predicate Distributed(
    live: set<Subscriber>, before: Allocation, after: Allocation, targets: map<string, seq<EventSource>>)
  {
    && targets.Keys == Groups(live)
    && (forall group :: group in targets ==>
          IsTarget(live, group, targets[group])
          && Spread(Eligible(live, group, targets[group]), targets[group], before, after))
    && (forall key :: key in after <==> key.group in targets && key in Eligible(live, key.group, targets[key.group]))
  }

  /** No source of a group is in two subscriptions, or twice in one. */
  ghost predicate Exclusive(allocation: Allocation) {
    && (forall key :: key in allocation ==> NoDuplicates(allocation[key]))
    && (forall a, b :: a in allocation && b in allocation && a.group == b.group && a != b ==>
          Sources(allocation, a) !! Sources(allocation, b))
  }

  /** Every group's target is exactly what its subscriptions hold, each source once. */
  ghost predicate Covered(live: set<Subscriber>, allocation: Allocation, targets: map<string, seq<EventSource>>) {
    forall group, source :: group in targets ==>
      (source in targets[group] ==> HeldOnce(Eligible(live, group, targets[group]), allocation, source))
      && (HeldBy(Eligible(live, group, targets[group]), allocation, source) ==> source in targets[group])
  }

  lemma DistributionKeepsExclusive(
    live: set<Subscriber>, before: Allocation, after: Allocation, targets: map<string, seq<EventSource>>)
    requires Distributed(live, before, after, targets) && Exclusive(before)
    ensures Exclusive(after)
  {
    forall a, b | a in after && b in after && a.group == b.group && a != b
      ensures Sources(after, a) !! Sources(after, b)
    {
      var target := targets[a.group];
      var keys := Eligible(live, a.group, target);
      assert Spread(keys, target, before, after);
      forall source | source in Sources(after, a) ensures source !in Sources(after, b) {
        assert source in target;
        if HeldBy(keys, before, source) {
          assert Kept(keys, before, after, source);
        } else {
          assert HeldOnce(keys, after, source);
        }
      }
    }
    forall key | key in after ensures NoDuplicates(after[key]) {
      assert Spread(Eligible(live, key.group, targets[key.group]), targets[key.group], before, after);
    }
  }

  lemma DistributionCovers(
    live: set<Subscriber>, before: Allocation, after: Allocation, targets: map<string, seq<EventSource>>)
    requires Distributed(live, before, after, targets) && Exclusive(before)
    ensures Covered(live, after, targets)
  {
    forall group, source | group in targets
      ensures source in targets[group] ==> HeldOnce(Eligible(live, group, targets[group]), after, source)
      ensures HeldBy(Eligible(live, group, targets[group]), after, source) ==> source in targets[group]
    {
      var target := targets[group];
      var keys := Eligible(live, group, target);
      assert Spread(keys, target, before, after);
      if source in target && HeldBy(keys, before, source) {
        var key :| key in keys && source in Sources(before, key);
        HeldInOnePlace(before, key, source);
        assert Kept(keys, before, after, source);
        forall other | other in keys && source in Sources(after, other) ensures other == key {
          assert source in Sources(before, other);
          assert other.group == key.group == group;
        }
      }
      if HeldBy(keys, after, source) {
        var key :| key in keys && source in Sources(after, key);
      }
    }
  }

  lemma HeldInOnePlace(allocation: Allocation, key: Key, source: EventSource)
    requires Exclusive(allocation) && source in Sources(allocation, key)
    ensures forall other: Key :: other.group == key.group && source in Sources(allocation, other) ==> other == key
  {
  }

  /** A requested source held by an eligible live subscriber never moves. */
  lemma HeldSourcesStay(
    live: set<Subscriber>, before: Allocation, after: Allocation, targets: map<string, seq<EventSource>>,
    s: Subscriber, source: EventSource)
    requires Distributed(live, before, after, targets) && s in live
    ensures s.group in targets
    ensures s.requests == targets[s.group] && source in s.requests && source in Sources(before, s.SubscriberKey()) ==>
      s.SubscriberKey() in after && source in Sources(after, s.SubscriberKey())
  {
    assert s.group in Groups(live);
    if s.requests == targets[s.group] && source in s.requests && source in Sources(before, s.SubscriberKey()) {
      var keys := Eligible(live, s.group, targets[s.group]);
      assert Spread(keys, targets[s.group], before, after);
      assert s.SubscriberKey() in keys;
      assert HeldBy(keys, before, source);
      assert Kept(keys, before, after, source);
    }
  }

  /** Distributing again for the same subscribers and targets changes no subscription's sources. */
  lemma DistributionIsStable(
    live: set<Subscriber>, before: Allocation, after: Allocation, again: Allocation,
    targets: map<string, seq<EventSource>>)
    requires Distributed(live, before, after, targets) && Distributed(live, after, again, targets)
    ensures again.Keys == after.Keys
    ensures forall key :: key in after ==> Sources(again, key) == Sources(after, key)
  {
    assert forall key :: key in again <==> key in after;
    forall key | key in after ensures Sources(again, key) == Sources(after, key) {
      var target := targets[key.group];
      var keys := Eligible(live, key.group, target);
      assert Spread(keys, target, before, after) && Spread(keys, target, after, again);
      forall source | source in target
        ensures source in Sources(again, key) <==> source in Sources(after, key)
      {
        StaysHeld(keys, before, after, source, target);
        assert Kept(keys, after, again, source);
      }
    }
  }

  lemma StaysHeld(
    keys: set<Key>, before: Allocation, after: Allocation, source: EventSource, target: seq<EventSource>)
    requires Spread(keys, target, before, after) && source in target
    ensures HeldBy(keys, after, source)
  {
  }

  // Runs.

  /** One distribution of a run: who was live, what was chosen, and what it left in the store. */
  datatype Round = Round(live: set<Subscriber>, targets: map<string, seq<EventSource>>, after: Allocation)

  ghost predicate Follows(before: Allocation, round: Round) {
    UniqueKeys(round.live) && Distributed(round.live, before, round.after, round.targets)
  }

  ghost predicate RunOf(start: Allocation, rounds: seq<Round>)
    decreases |rounds|
  {
    rounds == []
    || (Follows(start, rounds[0]) && RunOf(rounds[0].after, rounds[1..]))
  }

  /** Starting exclusive, every round leaves groups exclusive and exactly covered, however the live set changes. */
  lemma {:induction false} EveryRoundIsExact(start: Allocation, rounds: seq<Round>, i: nat)
    requires RunOf(start, rounds) && Exclusive(start) && i < |rounds|
    ensures Exclusive(rounds[i].after) && Covered(rounds[i].live, rounds[i].after, rounds[i].targets)
    ensures OnlyRequesters(rounds[i].live, rounds[i].after, rounds[i].targets)
    decreases i
  {
    DistributionKeepsExclusive(rounds[0].live, start, rounds[0].after, rounds[0].targets);
    if i > 0 {
      EveryRoundIsExact(rounds[0].after, rounds[1..], i - 1);
    } else {
      DistributionCovers(rounds[0].live, start, rounds[0].after, rounds[0].targets);
      OnlyEligible(rounds[0].live, start, rounds[0].after, rounds[0].targets);
    }
  }

  /** Subscriptions exist for exactly the live subscribers that make their group's target request. */
  ghost predicate OnlyRequesters(
      live: set<Subscriber>, allocation: Allocation, targets: map<string, seq<EventSource>>) {
    forall key :: key in allocation <==> Requests(live, targets, key)
  }

  ghost predicate Requests(live: set<Subscriber>, targets: map<string, seq<EventSource>>, key: Key) {
    key.group in targets && exists s :: s in live && s.SubscriberKey() == key && s.requests == targets[key.group]
  }

  lemma OnlyEligible(
    live: set<Subscriber>, before: Allocation, after: Allocation, targets: map<string, seq<EventSource>>)
    requires Distributed(live, before, after, targets)
    ensures OnlyRequesters(live, after, targets)
  {
  }

  /** From an empty store, every round leaves groups exclusive and exactly covered, however the live set changes. */
  lemma RoundsFromEmptyStore(rounds: seq<Round>, i: nat)
    requires RunOf(map[], rounds) && i < |rounds|
    ensures Exclusive(rounds[i].after) && Covered(rounds[i].live, rounds[i].after, rounds[i].targets)
    ensures OnlyRequesters(rounds[i].live, rounds[i].after, rounds[i].targets)
  {
    EveryRoundIsExact(map[], rounds, i);
  }
}
