/**
 The distribution of event sources over live subscribers (`distribute` and `chunk` in
 processing/broker/strategies/distributed/coordinator.py). Sets are visited in whatever order
 they iterate; of several longest requests any one may be the target.
 */
module Distribution {
  import opened Prelude
  import opened Events
  import opened Subscriptions
  import opened Allocations

  /** The slice `values[start::step]`. */
  function Strided<T>(values: seq<T>, start: nat, step: nat): seq<T>
    requires step > 0
    decreases |values| - start
  {
    if start >= |values| then [] else [values[start]] + Strided(values, start + step, step)
  }

  function Chunk<T>(values: seq<T>, chunks: nat): (r: seq<seq<T>>)
    ensures |r| == chunks
    ensures forall i :: 0 <= i < chunks ==> r[i] == Strided(values, i, chunks)
  {
    seq(chunks, i requires 0 <= i < chunks => Strided(values, i, chunks))
  }

  /** Whether index `j` is one of `start`, `start + step` and so on. */
  predicate Hits(start: nat, step: nat, j: nat)
    requires step > 0
    decreases if j >= start then j - start else 0
  {
    j == start || (j > start && Hits(start + step, step, j))
  }

  lemma {:induction false} StridedHits<T(!new)>(values: seq<T>, start: nat, step: nat)
    requires step > 0
    ensures forall x :: x in Strided(values, start, step) <==>
      exists j: nat :: j < |values| && Hits(start, step, j) && values[j] == x
    decreases |values| - start
  {
    if start < |values| {
      StridedHits(values, start + step, step);
      forall x ensures x in Strided(values, start, step) <==>
        exists j: nat :: j < |values| && Hits(start, step, j) && values[j] == x
      {
        if x in Strided(values, start + step, step) {
          var j: nat :| j < |values| && Hits(start + step, step, j) && values[j] == x;
          HitsAfter(start + step, step, j);
          assert Hits(start, step, j);
        }
        if x == values[start] {
          assert Hits(start, step, start);
        }
      }
    } else {
      forall j: nat | j < |values| ensures !Hits(start, step, j) {
        if Hits(start, step, j) {
          HitsAfter(start, step, j);
        }
      }
    }
  }

  lemma HitsAfter(start: nat, step: nat, j: nat)
    requires step > 0 && Hits(start, step, j)
    ensures j >= start
  {
  }

  /** Exactly one of the starts below `step` reaches index `j`. */
  lemma {:induction false} OneStartHits(step: nat, j: nat) returns (start: nat)
    requires step > 0
    ensures start < step && Hits(start, step, j)
    ensures forall other: nat :: other < step && Hits(other, step, j) ==> other == start
    decreases j
  {
    if j < step {
      start := j;
      forall other: nat | other < step && Hits(other, step, j) ensures other == j {
        if other != j {
          HitsAfter(other + step, step, j);
        }
      }
    } else {
      start := OneStartHits(step, j - step);
      forall other: nat | other < step ensures Hits(other, step, j) <==> Hits(other, step, j - step) {
        HitsShift(other, step, j - step);
      }
    }
  }

  lemma {:induction false} HitsShift(start: nat, step: nat, j: nat)
    requires step > 0
    ensures Hits(start + step, step, j + step) <==> Hits(start, step, j)
    ensures start < step ==> (Hits(start, step, j + step) <==> Hits(start, step, j))
    decreases if j >= start then j - start else 0
  {
    if j > start {
      HitsShift(start + step, step, j);
    }
  }

  lemma {:induction false} StridedNoDuplicates<T(!new)>(values: seq<T>, start: nat, step: nat)
    requires step > 0 && NoDuplicates(values)
    ensures NoDuplicates(Strided(values, start, step))
    decreases |values| - start
  {
    if start < |values| {
      StridedNoDuplicates(values, start + step, step);
      StridedHits(values, start + step, step);
      forall j: nat | j < |values| && Hits(start + step, step, j) ensures values[j] != values[start] {
        HitsAfter(start + step, step, j);
      }
      assert values[start] !in Strided(values, start + step, step);
    }
  }

  /** Later starts give no longer slices. */
  lemma {:induction false} StridedShortens<T>(values: seq<T>, start: nat, later: nat, step: nat)
    requires step > 0 && start <= later
    ensures |Strided(values, later, step)| <= |Strided(values, start, step)|
    decreases |values| - start
  {
    if later < |values| {
      StridedShortens(values, start + step, later + step, step);
    }
  }

  /** Chunks differ in length by at most one. */
  lemma ChunksBalanced<T>(values: seq<T>, chunks: nat, i: nat, j: nat)
    requires i < chunks && j < chunks
    ensures |Chunk(values, chunks)[i]| <= |Chunk(values, chunks)[j]| + 1
  {
    StridedShortens(values, j, i + chunks, chunks);
    assert |Strided(values, i, chunks)| <= 1 + |Strided(values, i + chunks, chunks)|;
  }

  /** Every value is in exactly one chunk, and no chunk repeats one. */
  lemma ChunksPartition<T(!new)>(values: seq<T>, chunks: nat)
    requires chunks > 0 && NoDuplicates(values)
    ensures forall i :: 0 <= i < chunks ==> NoDuplicates(Chunk(values, chunks)[i])
    ensures forall i, x :: 0 <= i < chunks && x in Chunk(values, chunks)[i] ==> x in values
    ensures forall x :: x in values ==> InOneChunk(Chunk(values, chunks), x)
  {
    forall i | 0 <= i < chunks
      ensures NoDuplicates(Chunk(values, chunks)[i])
      ensures forall x :: x in Chunk(values, chunks)[i] ==> x in values
    {
      StridedNoDuplicates(values, i, chunks);
      StridedHits(values, i, chunks);
    }
    forall x | x in values ensures InOneChunk(Chunk(values, chunks), x) {
      var j :| 0 <= j < |values| && values[j] == x;
      var start := OneStartHits(chunks, j);
      StridedHits(values, start, chunks);
      assert Hits(start, chunks, j) && x in Chunk(values, chunks)[start];
      forall i | 0 <= i < chunks && x in Chunk(values, chunks)[i] ensures i == start {
        StridedHits(values, i, chunks);
        var k: nat :| k < |values| && Hits(i, chunks, k) && values[k] == x;
        assert k == j;
      }
    }
  }

  ghost predicate InOneChunk<T>(chunks: seq<seq<T>>, x: T) {
    exists i :: 0 <= i < |chunks| && x in chunks[i]
      && forall j :: 0 <= j < |chunks| && x in chunks[j] ==> j == i
  }

  // One group.

  /** `sorted(requests, key=len, reverse=True)[0]`, whatever the order of equally long ones. */
  method LongestRequest(subscribers: set<Subscriber>) returns (target: seq<EventSource>)
    requires subscribers != {}
    ensures exists s :: s in subscribers && s.requests == target
    ensures forall s :: s in subscribers ==> |s.requests| <= |target|
  {
    var first :| first in subscribers;
    target := first.requests;
    var remaining := subscribers - {first};
    while remaining != {}
      invariant remaining <= subscribers
      invariant exists s :: s in subscribers && s.requests == target
      invariant forall s :: s in subscribers && s !in remaining ==> |s.requests| <= |target|
      decreases |remaining|
    {
      var s :| s in remaining;
      remaining := remaining - {s};
      if |s.requests| > |target| {
        target := s.requests;
      }
    }
  }

  /** The sources the subscriptions of `subscribers` hold. */
  function AllocatedTo(subscribers: set<Subscriber>, table: Table): (r: set<EventSource>)
    ensures forall source :: source in r <==>
      exists s :: s in subscribers && s.SubscriberKey() in table && source in table[s.SubscriberKey()].eventSources
  {
    set s, source | s in subscribers && s.SubscriberKey() in table && source in table[s.SubscriberKey()].eventSources
      :: source
  }

  ghost predicate Removal(table: Table, change: Change) {
    change.RemoveChange? && change.ChangeKey() in table && table[change.ChangeKey()] == change.subscription
  }

  method RemoveIneligible(ineligible: set<Subscriber>, table: Table) returns (changes: seq<Change>)
    requires UniqueKeys(ineligible) && Keyed(table)
    ensures DistinctKeys(changes) && forall change :: change in changes ==> Removal(table, change)
    ensures forall key :: key in KeysOf(changes) <==>
      key in table && exists s :: s in ineligible && s.SubscriberKey() == key
  {
    changes := [];
    var remaining := ineligible;
    while remaining != {}
      invariant remaining <= ineligible
      invariant DistinctKeys(changes) && forall change :: change in changes ==> Removal(table, change)
      invariant forall key :: key in KeysOf(changes) <==>
        key in table && exists s :: s in ineligible && s !in remaining && s.SubscriberKey() == key
      decreases |remaining|
    {
      var s :| s in remaining;
      remaining := remaining - {s};
      if s.SubscriberKey() in table {
        var change := RemoveChange(table[s.SubscriberKey()]);
        KeysGrow(changes, change);
        DistinctGrow(changes, change);
        changes := changes + [change];
      }
    }
  }

  /** The change that gives a subscriber its sources. */
  ghost predicate Grant(table: Table, grants: Allocation, change: Change) {
    && !change.RemoveChange? && change.ChangeKey() in grants
    && change.subscription.eventSources == grants[change.ChangeKey()]
    && (change.AddChange? <==> change.ChangeKey() !in table)
  }

  /** What is left of a subscriber's sources, then its chunk. */
  ghost predicate Topped(
      table: Table, removed: set<EventSource>, key: Key, portion: seq<EventSource>, sources: seq<EventSource>) {
    NoDuplicates(sources) && ToSet(sources) == (Sources(AllocationOf(table), key) - removed) + ToSet(portion)
  }

  /** A subscription added or replaced names the node of the live subscriber it is for. */
  ghost predicate OnOwnNode(live: set<Subscriber>, change: Change) {
    !change.RemoveChange? ==>
      exists s :: s in live && s.SubscriberKey() == change.ChangeKey() && s.nodeId == change.subscription.nodeId
  }

  ghost predicate OnOwnNodes(live: set<Subscriber>, changes: seq<Change>) {
    forall change :: change in changes ==> OnOwnNode(live, change)
  }

  lemma OnOwnNodesGrow(live: set<Subscriber>, changes: seq<Change>, s: Subscriber, change: Change)
    requires OnOwnNodes(live, changes) && s in live
    requires s.SubscriberKey() == change.ChangeKey() && s.nodeId == change.subscription.nodeId
    ensures OnOwnNodes(live, changes + [change])
  {
  }

  /** Removals come first and name no node. */
  lemma OnOwnNodesJoin(live: set<Subscriber>, members: set<Subscriber>, a: seq<Change>, b: seq<Change>)
    requires OnOwnNodes(live, a) && OnOwnNodes(members, b) && members <= live
    ensures OnOwnNodes(live, a + b)
  {
    forall change | change in b ensures OnOwnNode(live, change) {
      assert OnOwnNode(members, change);
    }
  }

  lemma RemovalsOnOwnNodes(live: set<Subscriber>, table: Table, removals: seq<Change>)
    requires forall change :: change in removals ==> Removal(table, change)
    ensures OnOwnNodes(live, removals)
  {
  }

  method GrantOne(group: string, s: Subscriber, table: Table, removed: set<EventSource>, portion: seq<EventSource>)
    returns (change: Change)
    requires s.group == group && NoDuplicates(portion)
    requires (Sources(AllocationOf(table), s.SubscriberKey()) - removed) !! ToSet(portion)
    ensures change.ChangeKey() == s.SubscriberKey() && !change.RemoveChange?
    ensures change.AddChange? <==> s.SubscriberKey() !in table
    ensures Topped(table, removed, s.SubscriberKey(), portion, change.subscription.eventSources)
    ensures change.subscription.nodeId == s.nodeId
  {
    var key := s.SubscriberKey();
    if key !in table {
      change := AddChange(Subscription(group, s.id, s.nodeId, portion));
    } else {
      var remaining := Enumerate(ToSet(table[key].eventSources) - removed);
      DisjointConcat(remaining, portion);
      change := ReplaceChange(Subscription(group, s.id, s.nodeId, remaining + portion));
    }
  }

  ghost predicate AllTopped(
    table: Table, removed: set<EventSource>, chunks: seq<seq<EventSource>>, order: seq<Subscriber>, grants: Allocation,
    n: nat)
    requires n <= |order| == |chunks|
  {
    forall i :: 0 <= i < n ==>
      order[i].SubscriberKey() in grants
      && Topped(table, removed, order[i].SubscriberKey(), chunks[i], grants[order[i].SubscriberKey()])
  }

  ghost predicate DisjointKeys(order: seq<Subscriber>) {
    forall i, j :: 0 <= i < j < |order| ==> order[i].SubscriberKey() != order[j].SubscriberKey()
  }

  lemma KeysDisjoint(subscribers: set<Subscriber>, order: seq<Subscriber>)
    requires UniqueKeys(subscribers) && NoDuplicates(order) && ToSet(order) == subscribers
    ensures DisjointKeys(order)
  {
    forall i, j | 0 <= i < j < |order| ensures order[i].SubscriberKey() != order[j].SubscriberKey() {
      assert order[i] in ToSet(order) && order[j] in ToSet(order);
    }
  }

  function KeysUpTo(order: seq<Subscriber>, n: nat): set<Key>
    requires n <= |order|
  {
    if n == 0 then {} else KeysUpTo(order, n - 1) + {order[n - 1].SubscriberKey()}
  }

  lemma {:induction false} KeysUpToAre(order: seq<Subscriber>, n: nat)
    requires n <= |order|
    ensures forall key :: key in KeysUpTo(order, n) <==> exists i :: 0 <= i < n && order[i].SubscriberKey() == key
  {
    if n > 0 {
      KeysUpToAre(order, n - 1);
    }
  }

  /** Each of the group's `order` can take its chunk on top of what it keeps. */
  ghost predicate Portions(
    group: string, order: seq<Subscriber>, table: Table, removed: set<EventSource>, chunks: seq<seq<EventSource>>)
  {
    && |chunks| == |order|
    && forall i :: 0 <= i < |order| ==>
         order[i].group == group && NoDuplicates(chunks[i])
         && (Sources(AllocationOf(table), order[i].SubscriberKey()) - removed) !! ToSet(chunks[i])
  }

  ghost predicate AllGranted(table: Table, grants: Allocation, changes: seq<Change>) {
    forall change :: change in changes ==> Grant(table, grants, change)
  }

  /** The first `n` eligible subscribers have their changes. */
  ghost predicate Allocated(
    order: seq<Subscriber>, table: Table, removed: set<EventSource>, chunks: seq<seq<EventSource>>,
    changes: seq<Change>, grants: Allocation, n: nat)
    requires n <= |order| == |chunks|
  {
    && DistinctKeys(changes) && KeysOf(changes) == grants.Keys == KeysUpTo(order, n)
    && AllGranted(table, grants, changes) && AllTopped(table, removed, chunks, order, grants, n)
    && OnOwnNodes(ToSet(order), changes)
  }

  method AllocateEligible(
    group: string, order: seq<Subscriber>, table: Table, removed: set<EventSource>, chunks: seq<seq<EventSource>>)
    returns (changes: seq<Change>, ghost grants: Allocation)
    requires DisjointKeys(order) && Portions(group, order, table, removed, chunks)
    ensures DistinctKeys(changes) && KeysOf(changes) == KeysUpTo(order, |order|) && OnOwnNodes(ToSet(order), changes)
    ensures Allocated(order, table, removed, chunks, changes, grants, |order|)
  {
    changes, grants := [], map[];
    for index := 0 to |order|
      invariant Allocated(order, table, removed, chunks, changes, grants, index)
    {
      var change := GrantOne(group, order[index], table, removed, chunks[index]);
      ghost var more := grants[change.ChangeKey() := change.subscription.eventSources];
      AllocatedNext(order, table, removed, chunks, changes, grants, index, change, more);
      changes, grants := changes + [change], more;
    }
  }

  lemma AllocatedNext(
    order: seq<Subscriber>, table: Table, removed: set<EventSource>, chunks: seq<seq<EventSource>>,
    changes: seq<Change>, grants: Allocation, n: nat, change: Change, more: Allocation)
    requires DisjointKeys(order) && n < |order| == |chunks|
    requires more == grants[change.ChangeKey() := change.subscription.eventSources]
    requires Allocated(order, table, removed, chunks, changes, grants, n)
    requires change.ChangeKey() == order[n].SubscriberKey() && change.subscription.nodeId == order[n].nodeId
    requires !change.RemoveChange?
    requires change.AddChange? <==> change.ChangeKey() !in table
    requires Topped(table, removed, change.ChangeKey(), chunks[n], change.subscription.eventSources)
    ensures Allocated(order, table, removed, chunks, changes + [change], more, n + 1)
  {
    KeysNext(order, changes, n, change);
    OnOwnNodesGrow(ToSet(order), changes, order[n], change);
    GrantsNext(table, grants, changes, change);
    ToppedNext(table, removed, chunks, order, grants, n, change.subscription.eventSources);
  }

  lemma KeysNext(order: seq<Subscriber>, changes: seq<Change>, n: nat, change: Change)
    requires DisjointKeys(order) && n < |order| && change.ChangeKey() == order[n].SubscriberKey()
    requires DistinctKeys(changes) && KeysOf(changes) == KeysUpTo(order, n)
    ensures change.ChangeKey() !in KeysOf(changes)
    ensures DistinctKeys(changes + [change]) && KeysOf(changes + [change]) == KeysUpTo(order, n + 1)
  {
    KeysUpToAre(order, n);
    KeysGrow(changes, change);
    DistinctGrow(changes, change);
  }

  lemma GrantsNext(table: Table, grants: Allocation, changes: seq<Change>, change: Change)
    requires change.ChangeKey() !in KeysOf(changes) && !change.RemoveChange?
    requires change.AddChange? <==> change.ChangeKey() !in table
    requires AllGranted(table, grants, changes)
    ensures AllGranted(table, grants[change.ChangeKey() := change.subscription.eventSources], changes + [change])
  {
    forall other | other in changes ensures other.ChangeKey() != change.ChangeKey() {
      assert other.ChangeKey() in KeysOf(changes);
    }
  }

  lemma ToppedNext(
    table: Table, removed: set<EventSource>, chunks: seq<seq<EventSource>>, order: seq<Subscriber>, grants: Allocation,
    n: nat, sources: seq<EventSource>)
    requires DisjointKeys(order) && n < |order| == |chunks| && AllTopped(table, removed, chunks, order, grants, n)
    requires Topped(table, removed, order[n].SubscriberKey(), chunks[n], sources)
    ensures AllTopped(table, removed, chunks, order, grants[order[n].SubscriberKey() := sources], n + 1)
  {
  }

  lemma DisjointConcat<T(!new)>(a: seq<T>, b: seq<T>)
    requires NoDuplicates(a) && NoDuplicates(b) && ToSet(a) !! ToSet(b)
    ensures NoDuplicates(a + b) && ToSet(a + b) == ToSet(a) + ToSet(b)
  {
    forall i, j | 0 <= i < j < |a + b| ensures (a + b)[i] != (a + b)[j] {
      if i < |a| <= j {
        assert a[i] in ToSet(a) && b[j - |a|] in ToSet(b);
      }
    }
  }

  // The chunks of what nobody eligible holds, added to what the eligible keep, spread the target.

  ghost predicate SplitsUnheld(
      keys: set<Key>, target: seq<EventSource>, before: Allocation, chunks: seq<seq<EventSource>>) {
    && (forall i :: 0 <= i < |chunks| ==> NoDuplicates(chunks[i]))
    && (forall i, source :: 0 <= i < |chunks| && source in chunks[i] ==>
          source in target && !HeldBy(keys, before, source))
    && (forall source :: source in target && !HeldBy(keys, before, source) ==> InOneChunk(chunks, source))
    && (forall i, j :: 0 <= i < |chunks| && 0 <= j < |chunks| ==> |chunks[i]| <= |chunks[j]| + 1)
  }

  /** Each key holds what it held of the target, and its chunk. */
  ghost predicate Holdings(
    order: seq<Key>, target: seq<EventSource>, before: Allocation, chunks: seq<seq<EventSource>>, after: Allocation)
    requires |order| == |chunks|
  {
    forall i :: 0 <= i < |order| ==>
      order[i] in after && NoDuplicates(after[order[i]])
      && Sources(after, order[i]) == Sources(before, order[i]) * ToSet(target) + ToSet(chunks[i])
  }

  lemma GivenIsChunk(
    order: seq<Key>, target: seq<EventSource>, before: Allocation, chunks: seq<seq<EventSource>>, after: Allocation,
    i: nat)
    requires |order| == |chunks| && SplitsUnheld(ToSet(order), target, before, chunks)
    requires Holdings(order, target, before, chunks, after) && i < |order|
    ensures Given(before, after, order[i]) == ToSet(chunks[i]) && |Given(before, after, order[i])| == |chunks[i]|
  {
    var key, portion := order[i], ToSet(chunks[i]);
    assert key in ToSet(order);
    assert portion !! Sources(before, key);
    assert Sources(after, key) == Sources(before, key) * ToSet(target) + portion;
    assert Given(before, after, key) == portion;
    NoDuplicatesSize(chunks[i]);
  }

  lemma HoldingsSpread(
    order: seq<Key>, target: seq<EventSource>, before: Allocation, chunks: seq<seq<EventSource>>, after: Allocation)
    requires NoDuplicates(order) && |order| == |chunks| && SplitsUnheld(ToSet(order), target, before, chunks)
    requires Holdings(order, target, before, chunks, after)
    ensures Spread(ToSet(order), target, before, after)
  {
    var keys := ToSet(order);
    forall key | key in keys
      ensures key in after && NoDuplicates(after[key]) && Sources(after, key) <= ToSet(target)
    {
      var i :| 0 <= i < |order| && order[i] == key;
    }
    forall source | source in target
      ensures if HeldBy(keys, before, source) then Kept(keys, before, after, source) else HeldOnce(keys, after, source)
    {
      SourceSpread(order, target, before, chunks, after, source);
    }
    forall a, b | a in keys && b in keys
      ensures |Given(before, after, a)| <= |Given(before, after, b)| + 1
    {
      var i :| 0 <= i < |order| && order[i] == a;
      var j :| 0 <= j < |order| && order[j] == b;
      GivenIsChunk(order, target, before, chunks, after, i);
      GivenIsChunk(order, target, before, chunks, after, j);
    }
  }

  lemma SourceSpread(
    order: seq<Key>, target: seq<EventSource>, before: Allocation, chunks: seq<seq<EventSource>>, after: Allocation,
    source: EventSource)
    requires NoDuplicates(order) && |order| == |chunks| && SplitsUnheld(ToSet(order), target, before, chunks)
    requires Holdings(order, target, before, chunks, after) && source in target
    ensures if HeldBy(ToSet(order), before, source) then Kept(ToSet(order), before, after, source)
            else HeldOnce(ToSet(order), after, source)
  {
    var keys := ToSet(order);
    if HeldBy(keys, before, source) {
      forall key | key in keys ensures source in Sources(after, key) <==> source in Sources(before, key) {
        var i :| 0 <= i < |order| && order[i] == key;
        assert source !in chunks[i];
      }
    } else {
      assert InOneChunk(chunks, source);
      var i :| 0 <= i < |chunks| && source in chunks[i]
        && forall j :: 0 <= j < |chunks| && source in chunks[j] ==> j == i;
      assert order[i] in keys && source in Sources(after, order[i]);
      forall key | key in keys && source in Sources(after, key) ensures key == order[i] {
        var j :| 0 <= j < |order| && order[j] == key;
        assert source !in Sources(before, key);
        assert source in chunks[j];
      }
    }
  }

  /** The changes of one group: grants for the eligible, removals for the others that hold something. */
  ghost predicate GroupChanges(members: set<Subscriber>, table: Table, grants: Allocation, changes: seq<Change>) {
    && DistinctKeys(changes)
    && (forall change :: change in changes ==> ChangeFits(table, grants, change))
    && (forall key :: key in KeysOf(changes) <==> key in grants || (key in table && HasKey(members, key)))
  }

  ghost predicate ChangeFits(table: Table, grants: Allocation, change: Change) {
    if change.ChangeKey() in grants then Grant(table, grants, change) else Removal(table, change)
  }

  ghost predicate HasKey(members: set<Subscriber>, key: Key) {
    exists s :: s in members && s.SubscriberKey() == key
  }

  method DistributeGroup(group: string, members: set<Subscriber>, table: Table)
    returns (changes: seq<Change>, target: seq<EventSource>, ghost grants: Allocation)
    requires members != {} && UniqueKeys(members) && Keyed(table) && forall s :: s in members ==> s.group == group
    ensures IsTarget(members, group, target)
    ensures grants.Keys == Eligible(members, group, target)
    ensures Spread(grants.Keys, target, AllocationOf(table), grants)
    ensures GroupChanges(members, table, grants, changes)
    ensures OnOwnNodes(members, changes)
  {
    target := LongestRequest(members);
    var eligible := set s | s in members && s.requests == target;
    var ineligible := members - eligible;
    var correct := AllocatedTo(eligible, table) * ToSet(target);
    var removed := AllocatedTo(members, table) - ToSet(target);
    var newSources := Enumerate(ToSet(target) - correct);
    var order := Enumerate(eligible);
    NoDuplicatesSize(order);
    SomeoneEligible(members, order, target);
    var chunks := Chunk(newSources, |eligible|);
    KeysDisjoint(eligible, order);
    ChunksFit(group, members, order, table, target, newSources, removed);
    var removals := RemoveIneligible(ineligible, table);
    var additions;
    additions, grants := AllocateEligible(group, order, table, removed, chunks);
    changes := removals + additions;
    RemovalsOnOwnNodes(members, table, removals);
    OnOwnNodesJoin(members, eligible, removals, additions);
    ToppedHoldings(members, order, table, target, newSources, grants);
    GrantsAreEligible(members, group, order, target, grants);
    HoldingsSpread(OrderKeys(order), target, AllocationOf(table), chunks, grants);
    JoinChanges(members, eligible, table, grants, removals, additions);
  }

  function OrderKeys(order: seq<Subscriber>): (r: seq<Key>)
    ensures |r| == |order|
    ensures forall i :: 0 <= i < |r| ==> r[i] == order[i].SubscriberKey()
  {
    Map((s: Subscriber) => s.SubscriberKey(), order)
  }

  ghost predicate EligibleOrder(
    members: set<Subscriber>, order: seq<Subscriber>, target: seq<EventSource>)
  {
    UniqueKeys(members) && NoDuplicates(order) && ToSet(order) == (set s | s in members && s.requests == target)
  }

  lemma SomeoneEligible(members: set<Subscriber>, order: seq<Subscriber>, target: seq<EventSource>)
    requires ToSet(order) == (set s | s in members && s.requests == target)
    requires exists s :: s in members && s.requests == target
    ensures order != []
  {
    var s :| s in members && s.requests == target;
    assert s in ToSet(order);
  }

  /** What the eligible hold of the target is what was correctly allocated. */
  lemma HeldIsAllocated(
    members: set<Subscriber>, order: seq<Subscriber>, table: Table, target: seq<EventSource>, source: EventSource)
    requires EligibleOrder(members, order, target)
    ensures HeldBy(ToSet(OrderKeys(order)), AllocationOf(table), source)
        <==> source in AllocatedTo(ToSet(order), table)
  {
    var keys := ToSet(OrderKeys(order));
    if HeldBy(keys, AllocationOf(table), source) {
      var key :| key in keys && source in Sources(AllocationOf(table), key);
      var i :| 0 <= i < |order| && OrderKeys(order)[i] == key;
      assert order[i] in ToSet(order);
    }
    if source in AllocatedTo(ToSet(order), table) {
      var s :| s in ToSet(order) && s.SubscriberKey() in table && source in table[s.SubscriberKey()].eventSources;
      var i :| 0 <= i < |order| && order[i] == s;
      assert OrderKeys(order)[i] in keys;
    }
  }

  lemma ChunksFit(
    group: string, members: set<Subscriber>, order: seq<Subscriber>, table: Table, target: seq<EventSource>,
    newSources: seq<EventSource>, removed: set<EventSource>)
    requires EligibleOrder(members, order, target) && order != [] && forall s :: s in members ==> s.group == group
    requires NoDuplicates(newSources)
    requires ToSet(newSources) == ToSet(target) - AllocatedTo(ToSet(order), table) * ToSet(target)
    requires removed == AllocatedTo(members, table) - ToSet(target)
    ensures SplitsUnheld(ToSet(OrderKeys(order)), target, AllocationOf(table), Chunk(newSources, |order|))
    ensures Portions(group, order, table, removed, Chunk(newSources, |order|))
  {
    var keys, before, chunks := ToSet(OrderKeys(order)), AllocationOf(table), Chunk(newSources, |order|);
    ChunksPartition(newSources, |order|);
    forall source ensures source in ToSet(newSources) <==> source in target && !HeldBy(keys, before, source) {
      HeldIsAllocated(members, order, table, target, source);
    }
    forall i, j | 0 <= i < |chunks| && 0 <= j < |chunks| ensures |chunks[i]| <= |chunks[j]| + 1 {
      ChunksBalanced(newSources, |order|, i, j);
    }
    forall i | 0 <= i < |order|
      ensures order[i].group == group && (Sources(before, order[i].SubscriberKey()) - removed) !! ToSet(chunks[i])
    {
      assert order[i] in ToSet(order);
      OwnKept(members, order, table, target, i);
      assert OrderKeys(order)[i] in keys;
    }
  }

  lemma OwnKept(
    members: set<Subscriber>, order: seq<Subscriber>, table: Table, target: seq<EventSource>, i: nat)
    requires EligibleOrder(members, order, target) && i < |order|
    ensures var own := Sources(AllocationOf(table), order[i].SubscriberKey());
      var removed := AllocatedTo(members, table) - ToSet(target);
      own - removed == own * ToSet(target)
  {
    var own := Sources(AllocationOf(table), order[i].SubscriberKey());
    var removed := AllocatedTo(members, table) - ToSet(target);
    assert order[i] in ToSet(order);
    forall source | source in own ensures source in AllocatedTo(members, table) {
      assert order[i] in members && order[i].SubscriberKey() in table;
    }
  }

  lemma ToppedHoldings(
    members: set<Subscriber>, order: seq<Subscriber>, table: Table, target: seq<EventSource>,
    newSources: seq<EventSource>, grants: Allocation)
    requires EligibleOrder(members, order, target)
    requires AllTopped(table, AllocatedTo(members, table) - ToSet(target), Chunk(newSources, |order|), order, grants,
                       |order|)
    ensures Holdings(OrderKeys(order), target, AllocationOf(table), Chunk(newSources, |order|), grants)
  {
    var keys := OrderKeys(order);
    forall i | 0 <= i < |order|
      ensures keys[i] in grants && NoDuplicates(grants[keys[i]])
      ensures Sources(grants, keys[i])
           == Sources(AllocationOf(table), keys[i]) * ToSet(target) + ToSet(Chunk(newSources, |order|)[i])
    {
      ToppedHolds(members, order, table, target, newSources, grants, i);
    }
  }

  lemma ToppedHolds(
    members: set<Subscriber>, order: seq<Subscriber>, table: Table, target: seq<EventSource>,
    newSources: seq<EventSource>, grants: Allocation, i: nat)
    requires EligibleOrder(members, order, target) && i < |order|
    requires AllTopped(table, AllocatedTo(members, table) - ToSet(target), Chunk(newSources, |order|), order, grants,
                       |order|)
    ensures var key := order[i].SubscriberKey();
      key in grants && NoDuplicates(grants[key])
      && Sources(grants, key)
         == Sources(AllocationOf(table), key) * ToSet(target) + ToSet(Chunk(newSources, |order|)[i])
  {
    OwnKept(members, order, table, target, i);
    assert Topped(table, AllocatedTo(members, table) - ToSet(target), order[i].SubscriberKey(),
                  Chunk(newSources, |order|)[i], grants[order[i].SubscriberKey()]);
  }

  lemma {:induction false} GrantsAreEligible(
    members: set<Subscriber>, group: string, order: seq<Subscriber>, target: seq<EventSource>, grants: Allocation)
    requires EligibleOrder(members, order, target) && DisjointKeys(order)
    requires forall s :: s in members ==> s.group == group
    requires grants.Keys == KeysUpTo(order, |order|)
    ensures grants.Keys == Eligible(members, group, target) == ToSet(OrderKeys(order))
    ensures NoDuplicates(OrderKeys(order))
  {
    KeysUpToAre(order, |order|);
    forall key ensures key in KeysUpTo(order, |order|) <==> key in Eligible(members, group, target) {
      KeyIsEligible(members, group, order, target, key);
    }
    OrderKeysSet(order);
  }

  lemma OrderKeysSet(order: seq<Subscriber>)
    ensures ToSet(OrderKeys(order)) == KeysUpTo(order, |order|)
    ensures DisjointKeys(order) ==> NoDuplicates(OrderKeys(order))
  {
    var keys := OrderKeys(order);
    KeysUpToAre(order, |order|);
    forall key ensures key in ToSet(keys) <==> key in KeysUpTo(order, |order|) {
      if key in ToSet(keys) {
        var i :| 0 <= i < |keys| && keys[i] == key;
        assert order[i].SubscriberKey() == key;
      }
      if key in KeysUpTo(order, |order|) {
        var i :| 0 <= i < |order| && order[i].SubscriberKey() == key;
        assert keys[i] == key;
      }
    }
  }

  lemma KeyIsEligible(
    members: set<Subscriber>, group: string, order: seq<Subscriber>, target: seq<EventSource>, key: Key)
    requires EligibleOrder(members, order, target) && forall s :: s in members ==> s.group == group
    ensures key in Eligible(members, group, target) <==> exists i :: 0 <= i < |order| && order[i].SubscriberKey() == key
  {
    if i :| 0 <= i < |order| && order[i].SubscriberKey() == key {
      assert order[i] in ToSet(order);
    }
    if key in Eligible(members, group, target) {
      var s :| s in members && s.group == group && s.requests == target && s.SubscriberKey() == key;
      assert s in ToSet(order);
    }
  }

  lemma JoinChanges(
    members: set<Subscriber>, eligible: set<Subscriber>, table: Table, grants: Allocation,
    removals: seq<Change>, additions: seq<Change>)
    requires UniqueKeys(members) && eligible <= members
    requires forall key :: key in grants <==> HasKey(eligible, key)
    requires DistinctKeys(removals) && forall change :: change in removals ==> Removal(table, change)
    requires forall key :: key in KeysOf(removals) <==> key in table && HasKey(members - eligible, key)
    requires DistinctKeys(additions) && KeysOf(additions) == grants.Keys
    requires forall change :: change in additions ==> Grant(table, grants, change)
    ensures GroupChanges(members, table, grants, removals + additions)
  {
    forall a, b | a in eligible && b in members - eligible ensures a.SubscriberKey() != b.SubscriberKey() {
      assert a in members && b in members;
    }
    ConcatDistinct(removals, additions);
    forall change | change in removals ensures ChangeFits(table, grants, change) {
      assert change.ChangeKey() in KeysOf(removals);
    }
    forall key ensures key in KeysOf(removals + additions) <==>
      key in grants || (key in table && HasKey(members, key))
    {
      if HasKey(members, key) {
        var s :| s in members && s.SubscriberKey() == key;
        assert s in eligible || s in members - eligible;
      }
    }
  }

  lemma ConcatDistinct(a: seq<Change>, b: seq<Change>)
    requires DistinctKeys(a) && DistinctKeys(b) && KeysOf(a) !! KeysOf(b)
    ensures DistinctKeys(a + b) && KeysOf(a + b) == KeysOf(a) + KeysOf(b)
  {
    forall i, j | 0 <= i < j < |a + b| ensures (a + b)[i].ChangeKey() != (a + b)[j].ChangeKey() {
      if i < |a| <= j {
        assert a[i].ChangeKey() in KeysOf(a) && b[j - |a|].ChangeKey() in KeysOf(b);
      }
    }
  }

  // All groups.

  predicate IsLive(live: set<Subscriber>, key: Key) {
    exists s :: s in live && s.SubscriberKey() == key
  }

  method RemoveDead(live: set<Subscriber>, table: Table) returns (changes: seq<Change>)
    requires Keyed(table)
    ensures DistinctKeys(changes) && forall change :: change in changes ==> Removal(table, change)
    ensures forall key :: key in KeysOf(changes) <==> key in table && !IsLive(live, key)
  {
    changes := [];
    var remaining := table.Keys;
    while remaining != {}
      invariant remaining <= table.Keys && DistinctKeys(changes)
      invariant forall change :: change in changes ==> Removal(table, change)
      invariant forall key :: key in KeysOf(changes) <==> key in table && key !in remaining && !IsLive(live, key)
      decreases |remaining|
    {
      var key :| key in remaining;
      remaining := remaining - {key};
      if !IsLive(live, key) {
        var change := RemoveChange(table[key]);
        KeysGrow(changes, change);
        DistinctGrow(changes, change);
        changes := changes + [change];
      }
    }
  }

  /** The state of the loop over groups: which groups are done, and what was decided for them. */
  ghost predicate Decided(
    live: set<Subscriber>, table: Table, targets: map<string, seq<EventSource>>, grants: Allocation,
    changes: seq<Change>)
  {
    ChangesDecided(live, table, targets, grants, changes) && KeysDecided(live, targets, grants)
    && GroupsDecided(live, table, targets, grants)
  }

  ghost predicate ChangesDecided(
    live: set<Subscriber>, table: Table, targets: map<string, seq<EventSource>>, grants: Allocation,
    changes: seq<Change>)
  {
    && DistinctKeys(changes)
    && (forall change :: change in changes ==> ChangeFits(table, grants, change))
    && (forall key :: key in KeysOf(changes) <==>
          key in grants || (key in table && (IsLive(live, key) ==> key.group in targets)))
  }

  ghost predicate KeysDecided(live: set<Subscriber>, targets: map<string, seq<EventSource>>, grants: Allocation) {
    forall key :: key in grants <==> key.group in targets && key in Eligible(live, key.group, targets[key.group])
  }

  ghost predicate GroupsDecided(
    live: set<Subscriber>, table: Table, targets: map<string, seq<EventSource>>, grants: Allocation)
  {
    forall group :: group in targets ==> GroupDecided(live, table, grants, group, targets[group])
  }

  ghost predicate GroupDecided(
    live: set<Subscriber>, table: Table, grants: Allocation, group: string, target: seq<EventSource>)
  {
    IsTarget(live, group, target) && Spread(Eligible(live, group, target), target, AllocationOf(table), grants)
  }

  lemma NothingDecided(live: set<Subscriber>, table: Table, changes: seq<Change>)
    requires DistinctKeys(changes) && forall change :: change in changes ==> Removal(table, change)
    requires forall key :: key in KeysOf(changes) <==> key in table && !IsLive(live, key)
    ensures Decided(live, table, map[], map[], changes)
  {
  }

  lemma MembersDecide(
    live: set<Subscriber>, group: string, target: seq<EventSource>)
    ensures IsTarget(Members(live, group), group, target) <==> IsTarget(live, group, target)
    ensures Eligible(Members(live, group), group, target) == Eligible(live, group, target)
  {
    var members := Members(live, group);
    if IsTarget(members, group, target) {
      var s :| s in members && s.group == group && s.requests == target;
      assert s in live;
      assert forall other :: other in live && other.group == group ==> other in members;
    }
    if IsTarget(live, group, target) {
      var s :| s in live && s.group == group && s.requests == target;
      assert s in members;
    }
  }

  ghost predicate SameShares(keys: set<Key>, grants: Allocation, more: Allocation) {
    forall key :: key in keys ==> key in grants && key in more && more[key] == grants[key]
  }

  /** What a spread says depends on the shares of its own keys alone. */
  lemma SpreadLocal(
    keys: set<Key>, target: seq<EventSource>, before: Allocation, grants: Allocation, more: Allocation)
    requires Spread(keys, target, before, grants) && SameShares(keys, grants, more)
    ensures Spread(keys, target, before, more)
  {
    forall key | key in keys
      ensures Sources(more, key) == Sources(grants, key) && Given(before, more, key) == Given(before, grants, key)
    {
      assert more[key] == grants[key];
    }
    forall source | source in target
      ensures if HeldBy(keys, before, source) then Kept(keys, before, more, source) else HeldOnce(keys, more, source)
    {
      SourceLocal(keys, before, grants, more, source);
    }
  }

  lemma SourceLocal(
    keys: set<Key>, before: Allocation, grants: Allocation, more: Allocation, source: EventSource)
    requires SameShares(keys, grants, more)
    ensures Kept(keys, before, grants, source) ==> Kept(keys, before, more, source)
    ensures HeldOnce(keys, grants, source) ==> HeldOnce(keys, more, source)
  {
    assert forall key :: key in keys ==> Sources(more, key) == Sources(grants, key);
    if HeldOnce(keys, grants, source) {
      var key :| key in keys && source in Sources(grants, key)
        && forall other :: other in keys && source in Sources(grants, other) ==> other == key;
      assert source in Sources(more, key);
    }
  }

  lemma DecideGroup(
    live: set<Subscriber>, table: Table, targets: map<string, seq<EventSource>>, grants: Allocation,
    changes: seq<Change>,
    group: string, groupChanges: seq<Change>, target: seq<EventSource>, groupGrants: Allocation)
    requires UniqueKeys(live) && Decided(live, table, targets, grants, changes)
    requires group in Groups(live) && group !in targets
    requires IsTarget(Members(live, group), group, target)
    requires groupGrants.Keys == Eligible(Members(live, group), group, target)
    requires Spread(groupGrants.Keys, target, AllocationOf(table), groupGrants)
    requires GroupChanges(Members(live, group), table, groupGrants, groupChanges)
    ensures Decided(live, table, targets[group := target], grants + groupGrants, changes + groupChanges)
  {
    MembersDecide(live, group, target);
    DecideKeys(live, targets, grants, group, target, groupGrants);
    assert GroupDecided(live, table, groupGrants, group, target);
    DecideOthers(live, table, targets, grants, group, target, groupGrants);
    DecideChanges(live, table, targets, grants, changes, group, groupChanges, target, groupGrants);
  }

  lemma DecideKeys(
    live: set<Subscriber>, targets: map<string, seq<EventSource>>, grants: Allocation,
    group: string, target: seq<EventSource>, groupGrants: Allocation)
    requires KeysDecided(live, targets, grants) && group !in targets
    requires groupGrants.Keys == Eligible(live, group, target)
    ensures KeysDecided(live, targets[group := target], grants + groupGrants)
    ensures forall key :: key in groupGrants ==> key.group == group && IsLive(live, key)
    ensures forall key :: key in grants ==> key.group in targets && IsLive(live, key)
  {
  }

  lemma DecideOthers(
    live: set<Subscriber>, table: Table, targets: map<string, seq<EventSource>>, grants: Allocation,
    group: string, target: seq<EventSource>, groupGrants: Allocation)
    requires KeysDecided(live, targets, grants) && GroupsDecided(live, table, targets, grants) && group !in targets
    requires groupGrants.Keys == Eligible(live, group, target)
    requires GroupDecided(live, table, groupGrants, group, target)
    ensures GroupsDecided(live, table, targets[group := target], grants + groupGrants)
  {
    var more := grants + groupGrants;
    StillDecided(live, table, groupGrants, more, group, target);
    forall other | other in targets ensures GroupDecided(live, table, more, other, targets[other]) {
      assert GroupDecided(live, table, grants, other, targets[other]);
      SharesUntouched(live, targets, grants, group, target, groupGrants, other);
      StillDecided(live, table, grants, more, other, targets[other]);
    }
  }

  lemma SharesUntouched(
    live: set<Subscriber>, targets: map<string, seq<EventSource>>, grants: Allocation,
    group: string, target: seq<EventSource>, groupGrants: Allocation, other: string)
    requires KeysDecided(live, targets, grants) && group !in targets && other in targets
    requires groupGrants.Keys == Eligible(live, group, target)
    ensures SameShares(Eligible(live, other, targets[other]), grants, grants + groupGrants)
  {
    forall key | key in Eligible(live, other, targets[other]) ensures key in grants && key !in groupGrants {
      assert key.group == other;
    }
  }

  lemma StillDecided(
    live: set<Subscriber>, table: Table, grants: Allocation, more: Allocation, group: string, target: seq<EventSource>)
    requires GroupDecided(live, table, grants, group, target)
    requires SameShares(Eligible(live, group, target), grants, more)
    ensures GroupDecided(live, table, more, group, target)
  {
    SpreadLocal(Eligible(live, group, target), target, AllocationOf(table), grants, more);
  }

  /** A group's changes concern the keys granted to and the group's live ones in the table. */
  lemma GroupKeys(
    live: set<Subscriber>, table: Table, group: string, groupChanges: seq<Change>, groupGrants: Allocation)
    requires GroupChanges(Members(live, group), table, groupGrants, groupChanges)
    ensures forall key :: key in KeysOf(groupChanges) <==>
      key in groupGrants || (key in table && IsLive(live, key) && key.group == group)
  {
    forall key ensures key in KeysOf(groupChanges) <==>
      key in groupGrants || (key in table && IsLive(live, key) && key.group == group)
    {
      assert HasKey(Members(live, group), key) <==> IsLive(live, key) && key.group == group;
    }
  }

  lemma DecideChanges(
    live: set<Subscriber>, table: Table, targets: map<string, seq<EventSource>>, grants: Allocation,
    changes: seq<Change>,
    group: string, groupChanges: seq<Change>, target: seq<EventSource>, groupGrants: Allocation)
    requires DistinctKeys(changes) && group !in targets
    requires forall change :: change in changes ==> ChangeFits(table, grants, change)
    requires forall key :: key in KeysOf(changes) <==>
      key in grants || (key in table && (IsLive(live, key) ==> key.group in targets))
    requires forall key :: key in grants ==> key.group in targets && IsLive(live, key)
    requires forall key :: key in groupGrants ==> key.group == group && IsLive(live, key)
    requires GroupChanges(Members(live, group), table, groupGrants, groupChanges)
    ensures DistinctKeys(changes + groupChanges)
    ensures forall change :: change in changes + groupChanges ==> ChangeFits(table, grants + groupGrants, change)
    ensures forall key :: key in KeysOf(changes + groupChanges) <==>
      key in grants + groupGrants || (key in table && (IsLive(live, key) ==> key.group in targets[group := target]))
  {
    GroupKeys(live, table, group, groupChanges, groupGrants);
    ConcatDistinct(changes, groupChanges);
    forall change | change in changes + groupChanges ensures ChangeFits(table, grants + groupGrants, change) {
      if change in changes {
        assert change.ChangeKey() in KeysOf(changes);
      } else {
        assert change.ChangeKey() in KeysOf(groupChanges);
      }
    }
  }

  /** Applying the decided changes leaves exactly the decided shares. */
  lemma DecidedOutcome(
    live: set<Subscriber>, table: Table, targets: map<string, seq<EventSource>>, grants: Allocation,
    changes: seq<Change>,
    nodeId: string)
    requires Keyed(table) && Decided(live, table, targets, grants, changes) && targets.Keys == Groups(live)
    ensures Acceptable(table, changes) && Applied(table, nodeId, changes).1 == None
    ensures AllocationOf(Applied(table, nodeId, changes).0) == grants && Keyed(Applied(table, nodeId, changes).0)
    ensures Distributed(live, AllocationOf(table), grants, targets)
  {
    AppliedOutcome(table, nodeId, changes);
    assert forall key :: IsLive(live, key) ==> key.group in Groups(live);
    OutcomeIsGrants(table, nodeId, changes, grants, Applied(table, nodeId, changes).0);
    DecidedIsDistributed(live, table, targets, grants, changes);
  }

  lemma DecidedIsDistributed(
    live: set<Subscriber>, table: Table, targets: map<string, seq<EventSource>>, grants: Allocation,
    changes: seq<Change>)
    requires Decided(live, table, targets, grants, changes) && targets.Keys == Groups(live)
    ensures Distributed(live, AllocationOf(table), grants, targets)
  {
    assert forall key :: IsLive(live, key) ==> key.group in Groups(live);
    assert forall group :: group in targets ==> GroupDecided(live, table, grants, group, targets[group]);
  }

  lemma OutcomeIsGrants(
    table: Table, nodeId: string, changes: seq<Change>, grants: Allocation, after: Table)
    requires Keyed(table) && Outcome(table, nodeId, changes, after)
    requires forall change :: change in changes ==> ChangeFits(table, grants, change)
    requires forall key :: key in KeysOf(changes) <==> key in grants || key in table
    ensures AllocationOf(after) == grants && Keyed(after)
  {
    forall key
      ensures key in after <==> key in grants
      ensures key in after ==>
        key in grants && after[key].eventSources == grants[key] && after[key].SubscriptionKey() == key
    {
      if key in KeysOf(changes) {
        var change :| change in changes && change.ChangeKey() == key;
        assert ChangeFits(table, grants, change);
      }
    }
  }

  lemma DecidedAnywhere(
    live: set<Subscriber>, table: Table, targets: map<string, seq<EventSource>>, grants: Allocation,
    changes: seq<Change>)
    requires Keyed(table) && Decided(live, table, targets, grants, changes) && targets.Keys == Groups(live)
    ensures DistinctKeys(changes) && Acceptable(table, changes)
    ensures forall nodeId :: Applied(table, nodeId, changes).1 == None && Keyed(Applied(table, nodeId, changes).0)
    ensures forall nodeId ::
      Distributed(live, AllocationOf(table), AllocationOf(Applied(table, nodeId, changes).0), targets)
  {
    DecidedOutcome(live, table, targets, grants, changes, "");
    forall nodeId
      ensures Applied(table, nodeId, changes).1 == None && Keyed(Applied(table, nodeId, changes).0)
      ensures Distributed(live, AllocationOf(table), AllocationOf(Applied(table, nodeId, changes).0), targets)
    {
      DecidedOutcome(live, table, targets, grants, changes, nodeId);
    }
  }

  /** The changes a distribution applies, whatever order the sets iterate in. */
  method Distribute(live: set<Subscriber>, table: Table)
    returns (changes: seq<Change>, targets: map<string, seq<EventSource>>)
    requires UniqueKeys(live) && Keyed(table)
    ensures DistinctKeys(changes) && Acceptable(table, changes)
    ensures forall nodeId :: Applied(table, nodeId, changes).1 == None && Keyed(Applied(table, nodeId, changes).0)
    ensures forall nodeId ::
      Distributed(live, AllocationOf(table), AllocationOf(Applied(table, nodeId, changes).0), targets)
    ensures OnOwnNodes(live, changes)
  {
    changes := RemoveDead(live, table);
    targets := map[];
    ghost var grants: Allocation := map[];
    RemovalsOnOwnNodes(live, table, changes);
    NothingDecided(live, table, changes);
    var groups := Enumerate(Groups(live));
    for i := 0 to |groups|
      invariant targets.Keys == ToSet(groups[..i])
      invariant Decided(live, table, targets, grants, changes)
      invariant OnOwnNodes(live, changes)
    {
      var group := groups[i];
      PrefixGrows(groups, i);
      assert group in ToSet(groups);
      var members := Members(live, group);
      var s :| s in live && s.group == group;
      assert s in members;
      var groupChanges, target, groupGrants := DistributeGroup(group, members, table);
      DecideGroup(live, table, targets, grants, changes, group, groupChanges, target, groupGrants);
      OnOwnNodesJoin(live, members, changes, groupChanges);
      changes := changes + groupChanges;
      targets := targets[group := target];
      grants := grants + groupGrants;
    }
    assert groups[..|groups|] == groups;
    DecidedAnywhere(live, table, targets, grants, changes);
  }

  /** Distributing and applying, as the coordinator does under its lock: the store never refuses. */
  method DistributeIn(store: InMemoryEventSubscriptionStateStore, live: set<Subscriber>)
    returns (r: Result<(), StoreError>, targets: map<string, seq<EventSource>>)
    requires UniqueKeys(live) && Keyed(store.subscriptions)
    modifies store
    ensures r == Success(()) && Keyed(store.subscriptions)
    ensures Distributed(live, AllocationOf(old(store.subscriptions)), AllocationOf(store.subscriptions), targets)
  {
    var changes;
    changes, targets := Distribute(live, store.subscriptions);
    r := store.Apply(changes);
  }
}
