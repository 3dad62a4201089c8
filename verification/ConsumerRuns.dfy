/**
 A checkpointed consumer over a growing source (processing/consumers/source.py): passes,
 processor failures and crashes in any order. One consumer writes the checkpoint; the source
 is read in sequence order, as log serialisation gives it.
 */
module ConsumerRuns {
  import opened Prelude
  import opened Events
  import opened Conditions
  import opened ConsumerState

  const DEFAULT := "default"

  /** Acknowledging an event and committing, after the processor has handled it. */
  function Acknowledged(t: Tracker, e: StoredEvent): Tracker {
    RecordedIn(t, DEFAULT, EventToState(e))
  }

  function AcknowledgedAll(t: Tracker, events: seq<StoredEvent>): Tracker {
    if events == [] then t
    else Acknowledged(AcknowledgedAll(t, events[..|events| - 1]), events[|events| - 1])
  }

  /** The last event acknowledged is the checkpoint, and each one counts towards the next save. */
  lemma {:induction false} AcknowledgingSeveral(t: Tracker, events: seq<StoredEvent>)
    ensures LagOf(AcknowledgedAll(t, events), DEFAULT) == LagOf(t, DEFAULT) + |events|
    ensures StateOf(AcknowledgedAll(t, events), DEFAULT) ==
      if events == [] then StateOf(t, DEFAULT) else Some(EventToState(events[|events| - 1]))
  {
    if events != [] {
      AcknowledgingSeveral(t, events[..|events| - 1]);
    }
  }

  lemma AcknowledgedNext(t: Tracker, events: seq<StoredEvent>, n: nat)
    requires n < |events|
    ensures AcknowledgedAll(t, events[..n + 1]) == Acknowledged(AcknowledgedAll(t, events[..n]), events[n])
  {
    assert events[..n + 1][..n] == events[..n];
  }

  /** The write due at a commit is turned down. */
  predicate CommitRefused(interval: Option<nat>, t: Tracker, streams: Streams) {
    Due(interval, t, DEFAULT) && Refuses(t, streams, DEFAULT)
  }

  function Committed(interval: Option<nat>, t: Tracker, streams: Streams): (Tracker, Streams) {
    if Due(interval, t, DEFAULT) then Saved(t, streams, DEFAULT) else (t, streams)
  }

  /** The checkpoint after handling events one by one. */
  function Handled(interval: Option<nat>, t: Tracker, streams: Streams, events: seq<StoredEvent>): (Tracker, Streams) {
    if events == [] then (t, streams)
    else
      var (t', streams') := Handled(interval, t, streams, events[..|events| - 1]);
      Committed(interval, Acknowledged(t', events[|events| - 1]), streams')
  }

  /** The commit after the i-th event goes through. */
  predicate CommitPasses(interval: Option<nat>, t: Tracker, streams: Streams, events: seq<StoredEvent>, i: nat)
    requires i < |events|
  {
    var (t', streams') := Handled(interval, t, streams, events[..i]);
    !CommitRefused(interval, Acknowledged(t', events[i]), streams')
  }

  ghost predicate CommitsPass(interval: Option<nat>, t: Tracker, streams: Streams, events: seq<StoredEvent>, n: nat)
    requires n <= |events|
  {
    forall i :: 0 <= i < n ==> CommitPasses(interval, t, streams, events, i)
  }

  /** While nobody else writes the checkpoint, every commit goes through. */
  lemma OwnCommitsPass(
      interval: Option<nat>, t: Tracker, streams: Streams, events: seq<StoredEvent>, n: nat)
    requires n <= |events| && Expected(t, streams, DEFAULT) == TailPosition(streams, DEFAULT)
    ensures CommitsPass(interval, t, streams, events, n)
  {
    forall i | 0 <= i < n ensures CommitPasses(interval, t, streams, events, i) {
      OwnHandling(interval, t, streams, events, i);
      var (t', streams') := Handled(interval, t, streams, events[..i]);
      OwnCommitPasses(interval, t', streams', events[i]);
    }
  }

  lemma {:induction false} OwnHandling(
      interval: Option<nat>, t: Tracker, streams: Streams, events: seq<StoredEvent>, n: nat)
    requires n <= |events| && Expected(t, streams, DEFAULT) == TailPosition(streams, DEFAULT)
    ensures var (t', streams') := Handled(interval, t, streams, events[..n]);
      Expected(t', streams', DEFAULT) == TailPosition(streams', DEFAULT)
  {
    if n > 0 {
      OwnHandling(interval, t, streams, events, n - 1);
      HandledNext(interval, t, streams, events, n - 1);
      var (t', streams') := Handled(interval, t, streams, events[..n - 1]);
      OwnCommitPasses(interval, t', streams', events[n - 1]);
    }
  }

  lemma OwnCommitPasses(interval: Option<nat>, t: Tracker, streams: Streams, e: StoredEvent)
    requires Expected(t, streams, DEFAULT) == TailPosition(streams, DEFAULT)
    ensures !CommitRefused(interval, Acknowledged(t, e), streams)
    ensures var (t', streams') := Committed(interval, Acknowledged(t, e), streams);
      Expected(t', streams', DEFAULT) == TailPosition(streams', DEFAULT)
  {
  }

  lemma HandledNext(
      interval: Option<nat>, t: Tracker, streams: Streams, events: seq<StoredEvent>, n: nat)
    requires n < |events|
    ensures Handled(interval, t, streams, events[..n + 1])
         == var (t', streams') := Handled(interval, t, streams, events[..n]);
            Committed(interval, Acknowledged(t', events[n]), streams')
  {
    assert events[..n + 1][..n] == events[..n];
  }

  // How often the checkpoint is written.

  /** The lag after `m` more events: it starts anew whenever it completes the interval. */
  function LagAfter(k: nat, lag: nat, m: nat): nat {
    if m == 0 then lag
    else if LagAfter(k, lag, m - 1) + 1 == k then 0
    else LagAfter(k, lag, m - 1) + 1
  }

  lemma {:induction false} LagAfterIsRemainder(k: nat, lag: nat, m: nat)
    requires lag < k
    ensures LagAfter(k, lag, m) == (lag + m) % k
  {
    if m == 0 {
      QuotientIs(lag, k, 0, lag);
    } else {
      LagAfterIsRemainder(k, lag, m - 1);
      QuotientNext(lag + m - 1, k);
    }
  }

  /** The states written while handling `events` with interval `k`, starting from a lag of `lag`. */
  function Checkpoints(k: nat, lag: nat, events: seq<StoredEvent>): seq<Json>
    requires k >= 1
  {
    if events == [] then []
    else
      Checkpoints(k, lag, events[..|events| - 1])
      + if LagAfter(k, lag, |events|) == 0 then [Serialise(EventToState(events[|events| - 1]))] else []
  }

  lemma QuotientNext(x: nat, k: nat)
    requires k >= 1
    ensures (x + 1) % k == if x % k == k - 1 then 0 else x % k + 1
    ensures (x + 1) / k == x / k + if (x + 1) % k == 0 then 1 else 0
  {
    QuotientStep(x, k, x / k, x % k);
  }

  lemma QuotientStep(x: nat, k: nat, q: nat, r: nat)
    requires r < k && x == q * k + r
    ensures (x + 1) % k == if r == k - 1 then 0 else r + 1
    ensures (x + 1) / k == if r == k - 1 then q + 1 else q
  {
    if r == k - 1 {
      assert (q + 1) * k == q * k + k;
      QuotientIs(x + 1, k, q + 1, 0);
    } else {
      QuotientIs(x + 1, k, q, r + 1);
    }
  }

  lemma QuotientIs(x: nat, k: nat, q: nat, r: nat)
    requires k >= 1 && r < k && x == q * k + r
    ensures x / k == q && x % k == r
  {
    var d := x / k - q;
    assert d * k == (x / k) * k - q * k;
    assert x == (x / k) * k + x % k;
    assert d >= 1 ==> d * k >= k;
    assert d <= -1 ==> d * k <= -1 * k;
  }

  /** The event that completes the interval after which the j-th state is written. */
  function CompletingEvent(k: nat, lag: nat, j: nat): int {
    (j + 1) * k - lag - 1
  }

  lemma CompletingEventExists(k: nat, lag: nat, j: nat, m: nat)
    requires k >= 1 && lag < k && j < (lag + m) / k
    ensures 0 <= CompletingEvent(k, lag, j) < m
  {
    var x := lag + m;
    assert x == (x / k) * k + x % k;
    MultiplesGrow(1, j + 1, k);
    MultiplesGrow(j + 1, x / k, k);
  }

  lemma MultiplesGrow(a: nat, b: nat, k: nat)
    requires a <= b
    ensures a * k <= b * k
  {
    assert (b - a) * k == b * k - a * k;
  }

  /** There is one for every full interval, and it holds the event that completed it. */
  lemma {:induction false} CheckpointsAre(k: nat, lag: nat, events: seq<StoredEvent>)
    requires k >= 1 && lag < k
    ensures |Checkpoints(k, lag, events)| == (lag + |events|) / k
  {
    if events == [] {
      QuotientIs(lag, k, 0, lag);
    } else {
      CheckpointsAre(k, lag, events[..|events| - 1]);
      LagAfterIsRemainder(k, lag, |events|);
      QuotientNext(lag + |events| - 1, k);
    }
  }

  lemma {:induction false} CheckpointHolds(k: nat, lag: nat, events: seq<StoredEvent>, j: nat)
    requires k >= 1 && lag < k && j < (lag + |events|) / k
    ensures j < |Checkpoints(k, lag, events)| && 0 <= CompletingEvent(k, lag, j) < |events|
    ensures Checkpoints(k, lag, events)[j] == Serialise(EventToState(events[CompletingEvent(k, lag, j)]))
  {
    var m := |events|;
    CheckpointsAre(k, lag, events);
    CompletingEventExists(k, lag, j, m);
    CheckpointsAre(k, lag, events[..m - 1]);
    LagAfterIsRemainder(k, lag, m);
    QuotientNext(lag + m - 1, k);
    if j < (lag + m - 1) / k {
      CheckpointHolds(k, lag, events[..m - 1], j);
    } else {
      var q := (lag + m) / k;
      assert lag + m == q * k + (lag + m) % k;
    }
  }

  lemma CheckpointCount(k: nat, lag: nat, events: seq<StoredEvent>, before: seq<Json>, after: seq<Json>)
    requires lag < k && after == before + Checkpoints(k, lag, events)
    ensures |after| == |before| + (lag + |events|) / k
    ensures LagAfter(k, lag, |events|) == (lag + |events|) % k
  {
    CheckpointsAre(k, lag, events);
    LagAfterIsRemainder(k, lag, |events|);
  }

  /**
   With interval k the default stream grows by the state after every k-th event, counting on from
   the lag, and by nothing else.
   */
  lemma HandlingWritesEveryInterval(k: nat, t: Tracker, streams: Streams, events: seq<StoredEvent>)
    requires LagOf(t, DEFAULT) < k && Expected(t, streams, DEFAULT) == TailPosition(streams, DEFAULT)
    ensures var (t', streams') := Handled(Some(k), t, streams, events);
      Counted(k, LagOf(t, DEFAULT), events, StreamOf(streams, DEFAULT), StreamOf(streams', DEFAULT), LagOf(t', DEFAULT))
  {
    HandlingWrites(k, t, streams, events);
    var (t', streams') := Handled(Some(k), t, streams, events);
    CheckpointCount(k, LagOf(t, DEFAULT), events, StreamOf(streams, DEFAULT), StreamOf(streams', DEFAULT));
  }

  /** The stream has grown by the checkpoints of `events`, and what is left is the lag. */
  ghost predicate Counted(
    k: nat, lag: nat, events: seq<StoredEvent>, before: seq<Json>, after: seq<Json>, left: nat)
    requires k >= 1
  {
    && after == before + Checkpoints(k, lag, events)
    && |after| == |before| + (lag + |events|) / k && left == (lag + |events|) % k
  }

  lemma {:induction false} HandlingWrites(k: nat, t: Tracker, streams: Streams, events: seq<StoredEvent>)
    requires k >= 1 && LagOf(t, DEFAULT) < k && Expected(t, streams, DEFAULT) == TailPosition(streams, DEFAULT)
    ensures var (t', streams') := Handled(Some(k), t, streams, events);
      && StreamOf(streams', DEFAULT) == StreamOf(streams, DEFAULT) + Checkpoints(k, LagOf(t, DEFAULT), events)
      && LagOf(t', DEFAULT) == LagAfter(k, LagOf(t, DEFAULT), |events|) < k
      && Expected(t', streams', DEFAULT) == TailPosition(streams', DEFAULT)
  {
    if events != [] {
      var n := |events| - 1;
      HandlingWrites(k, t, streams, events[..n]);
      var (t', streams') := Handled(Some(k), t, streams, events[..n]);
      CommitWrites(k, t', streams', events[n]);
    }
  }

  /** A commit writes exactly when the lag completes the interval. */
  lemma CommitWrites(k: nat, t: Tracker, streams: Streams, e: StoredEvent)
    requires k >= 1 && LagOf(t, DEFAULT) < k && Expected(t, streams, DEFAULT) == TailPosition(streams, DEFAULT)
    ensures var (t', streams') := Committed(Some(k), Acknowledged(t, e), streams);
      && StreamOf(streams', DEFAULT) == StreamOf(streams, DEFAULT)
           + (if LagOf(t, DEFAULT) + 1 == k then [Serialise(EventToState(e))] else [])
      && LagOf(t', DEFAULT) == (if LagOf(t, DEFAULT) + 1 == k then 0 else LagOf(t, DEFAULT) + 1)
      && Expected(t', streams', DEFAULT) == TailPosition(streams', DEFAULT)
  {
  }

  /** Without an interval, or with zero, nothing is written. */
  lemma {:induction false} HandlingWritesNothing(
      interval: Option<nat>, t: Tracker, streams: Streams, events: seq<StoredEvent>)
    requires interval == None || interval == Some(0)
    ensures var (t', streams') := Handled(interval, t, streams, events);
      streams' == streams && LagOf(t', DEFAULT) == LagOf(t, DEFAULT) + |events|
  {
    if events != [] {
      HandlingWritesNothing(interval, t, streams, events[..|events| - 1]);
    }
  }

  /** What a pass reads: everything the checkpoint does not cover. */
  function Unread(t: Tracker, source: seq<StoredEvent>): seq<StoredEvent> {
    var constraint := Constraint(t, DEFAULT);
    if constraint.None? then source else Accepted({SequenceNumberAfter(constraint.value)}, source)
  }

  // The consumer as an object.

  class StateStoreEventProcessorManager {
    const stateStore: EventConsumerStateStore
    var consumedEvents: nat
    var processedEvents: nat

    constructor (stateStore: EventConsumerStateStore)
      ensures this.stateStore == stateStore && consumedEvents == 0 && processedEvents == 0
    {
      this.stateStore := stateStore;
      consumedEvents, processedEvents := 0, 0;
    }

    method IncrementConsumed()
      modifies this`consumedEvents
      ensures consumedEvents == old(consumedEvents) + 1
    {
      consumedEvents := consumedEvents + 1;
    }

    /** Records one event or several. */
    method Acknowledge(events: seq<StoredEvent>)
      modifies this`processedEvents, stateStore
      ensures processedEvents == old(processedEvents) + |events|
      ensures stateStore.Value() == AcknowledgedAll(old(stateStore.Value()), events)
    {
      ghost var t := stateStore.Value();
      for i := 0 to |events|
        invariant processedEvents == old(processedEvents) + i
        invariant stateStore.Value() == AcknowledgedAll(t, events[..i])
      {
        AcknowledgedNext(t, events, i);
        AcknowledgeOne(events[i]);
      }
      assert events[..|events|] == events;
    }

    method AcknowledgeOne(e: StoredEvent)
      modifies this`processedEvents, stateStore
      ensures processedEvents == old(processedEvents) + 1
      ensures stateStore.Value() == Acknowledged(old(stateStore.Value()), e)
    {
      var state := stateStore.RecordProcessed(e, map[], DEFAULT);
      assert EventToState(e) + map[] == EventToState(e);
      processedEvents := processedEvents + 1;
    }

    /** Forced, every partition that lags is saved; otherwise only the default one, when it is due. */
    method Commit(force: bool := false) returns (r: Result<(), UnmetWriteCondition>)
      modifies stateStore, stateStore.category
      ensures !force ==>
        && (stateStore.Value(), stateStore.category.streams) ==
             Committed(stateStore.persistenceInterval, old(stateStore.Value()), old(stateStore.category.streams))
        && (r.Failure? <==> CommitRefused(
             stateStore.persistenceInterval, old(stateStore.Value()), old(stateStore.category.streams)))
      ensures force ==> SaveOutcome(
        old(stateStore.Value()), old(stateStore.category.streams), r, stateStore.Value(), stateStore.category.streams)
    {
      if force {
        r := stateStore.Save();
      } else {
        r := stateStore.SaveIfNeeded(DEFAULT);
      }
    }
  }

  /** A save of every partition: complete, or ended by a refused write. */
  ghost predicate SaveOutcome(
    t: Tracker, streams: Streams, r: Result<(), UnmetWriteCondition>, t': Tracker, streams': Streams)
  {
    && (r.Success? <==> forall partition :: !Refuses(t, streams, partition))
    && (r.Success? ==> (t', streams') == SavedAll(t, streams))
    && (r.Failure? ==> exists written: set<string> :: (t', streams') == SavedOver(t, streams, written))
  }

  datatype PassError =
    | CannotLoad(state: StateError)
    | ProcessorFailed
    | CommitFailed(condition: UnmetWriteCondition)

  /** The first `handled` events went through the processor; the commits after all but the last of them passed. */
  ghost predicate Progressed(
    interval: Option<nat>, t: Tracker, streams: Streams, events: seq<StoredEvent>, processor: StoredEvent -> bool,
    handled: nat)
  {
    && handled <= |events| && (forall i :: 0 <= i < handled ==> processor(events[i]))
    && CommitsPass(interval, t, streams, events, if handled == 0 then 0 else handled - 1)
  }

  /** Why the events stopped being handled: none is left, the next one fails, or the last commit did. */
  ghost predicate Stopped(
    interval: Option<nat>, t: Tracker, streams: Streams, events: seq<StoredEvent>, processor: StoredEvent -> bool,
    handled: nat, r: Result<(), PassError>)
    requires handled <= |events|
  {
    match r
    case Success(_) => handled == |events| && CommitsPass(interval, t, streams, events, handled)
    case Failure(ProcessorFailed) =>
      handled < |events| && !processor(events[handled]) && CommitsPass(interval, t, streams, events, handled)
    case Failure(CommitFailed(_)) => handled > 0 && !CommitPasses(interval, t, streams, events, handled - 1)
    case Failure(CannotLoad(_)) => false
  }

  /**
   Runs the processor over events until it fails on one or a commit fails: what it handled
   before is acknowledged and committed event by event. A failing event is neither; an event
   whose commit fails is acknowledged and not counted as consumed.
   */
  method ProcessEvents(
      manager: StateStoreEventProcessorManager, events: seq<StoredEvent>, processor: StoredEvent -> bool)
    returns (handled: nat, r: Result<(), PassError>)
    modifies manager, manager.stateStore, manager.stateStore.category
    ensures var (interval, t, streams) := (
        manager.stateStore.persistenceInterval, old(manager.stateStore.Value()),
        old(manager.stateStore.category.streams));
      && Progressed(interval, t, streams, events, processor, handled)
      && Stopped(interval, t, streams, events, processor, handled, r)
      && (manager.stateStore.Value(), manager.stateStore.category.streams) ==
           Handled(interval, t, streams, events[..handled])
    ensures manager.processedEvents == old(manager.processedEvents) + handled
    ensures manager.consumedEvents ==
      old(manager.consumedEvents) + handled - if r.Failure? && r.error.CommitFailed? then 1 else 0
  {
    handled := 0;
    var store := manager.stateStore;
    ghost var interval, t, streams := store.persistenceInterval, store.Value(), store.category.streams;
    while handled < |events|
      invariant Progressed(interval, t, streams, events, processor, handled)
      invariant CommitsPass(interval, t, streams, events, handled)
      invariant (store.Value(), store.category.streams) == Handled(interval, t, streams, events[..handled])
      invariant manager.processedEvents == old(manager.processedEvents) + handled
      invariant manager.consumedEvents == old(manager.consumedEvents) + handled
      decreases |events| - handled
    {
      if !processor(events[handled]) {
        return handled, Failure(ProcessorFailed);
      }
      var committed := ProcessedOne(manager, events[handled]);
      HandledNext(interval, t, streams, events, handled);
      handled := handled + 1;
      if committed.Failure? {
        return handled, Failure(CommitFailed(committed.error));
      }
      manager.IncrementConsumed();
    }
    assert events[..|events|] == events;
    r := Success(());
  }

  /** Acknowledges an event the processor has handled, and commits. */
  method ProcessedOne(
      manager: StateStoreEventProcessorManager, e: StoredEvent) returns (r: Result<(), UnmetWriteCondition>)
    modifies manager`processedEvents, manager.stateStore, manager.stateStore.category
    ensures manager.processedEvents == old(manager.processedEvents) + 1
    ensures var (interval, t, streams) := (
        manager.stateStore.persistenceInterval, old(manager.stateStore.Value()),
        old(manager.stateStore.category.streams));
      && (manager.stateStore.Value(), manager.stateStore.category.streams) ==
           Committed(interval, Acknowledged(t, e), streams)
      && (r.Failure? <==> CommitRefused(interval, Acknowledged(t, e), streams))
  {
    manager.Acknowledge([e]);
    assert AcknowledgedAll(old(manager.stateStore.Value()), []) == old(manager.stateStore.Value());
    assert [e][..0] == [];
    r := manager.Commit();
  }

  /** What a pass over everything unread leaves behind. */
  ghost predicate Passed(
    settings: Settings, t: Tracker, streams: Streams, events: seq<StoredEvent>, processor: StoredEvent -> bool,
    handled: nat, r: Result<(), PassError>, t': Tracker, streams': Streams)
  {
    && Progressed(settings.interval, t, streams, events, processor, handled)
    && var (u, written) := Handled(settings.interval, t, streams, events[..handled]);
      if settings.saveAfterPass && Stopped(settings.interval, t, streams, events, processor, handled, Success(())) then
        Saves(u, written, r, t', streams')
      else
        Stopped(settings.interval, t, streams, events, processor, handled, r) && (t', streams') == (u, written)
  }

  ghost predicate Saves(
    t: Tracker, streams: Streams, r: Result<(), PassError>, t': Tracker, streams': Streams)
  {
    match r
    case Success(_) => SaveOutcome(t, streams, Success(()), t', streams')
    case Failure(CommitFailed(error)) => SaveOutcome(t, streams, Failure(error), t', streams')
    case _ => false
  }

  /**
   One pass: load the checkpoint, read what it does not cover, process it and, when so set up,
   save at the end of a pass nothing stopped.
   */
  method ConsumeAll(
    store: EventConsumerStateStore, source: seq<StoredEvent>, processor: StoredEvent -> bool, saveAfterPass: bool)
    returns (handled: nat, r: Result<(), PassError>)
    modifies store, store.category
    ensures match Loaded(old(store.Value()), old(store.category.streams), DEFAULT)
      case Failure(error) =>
        && handled == 0 && r == Failure(CannotLoad(error))
        && (store.Value(), store.category.streams) == (old(store.Value()), old(store.category.streams))
      case Success(t) =>
        Passed(Settings(store.persistenceInterval, saveAfterPass), t, old(store.category.streams), Unread(t, source),
               processor, handled, r, store.Value(), store.category.streams)
  {
    var constraint := store.LoadToQueryConstraint(DEFAULT);
    if constraint.Failure? {
      return 0, Failure(CannotLoad(constraint.error));
    }
    var events :=
      if constraint.value.None? then source else Accepted({SequenceNumberAfter(constraint.value.value)}, source);
    var manager := new StateStoreEventProcessorManager(store);
    handled, r := ProcessEvents(manager, events, processor);
    if r.Success? && saveAfterPass {
      var saved := manager.Commit(true);
      r := if saved.Failure? then Failure(CommitFailed(saved.error)) else Success(());
    }
  }

  // Runs.

  datatype Phase =
    | Idle
    | Running(pending: seq<StoredEvent>)
    | Processed(pending: seq<StoredEvent>)
    | Recorded(pending: seq<StoredEvent>)

  /** `deliveries` are the events the processor has handled, in order, over all lives of the consumer. */
  datatype World = World(
    source: seq<StoredEvent>, tracker: Tracker, streams: Streams, phase: Phase, deliveries: seq<StoredEvent>)

  datatype Action =
    | Publish(event: StoredEvent)
    | StartPass
    | Refresh
    | Process
    | Fail
    | Acknowledge
    | Commit
    | EndPass
    | Crash

  /** How the consumer is set up. */
  datatype Settings = Settings(interval: Option<nat>, saveAfterPass: bool)

  predicate Possible(w: World, action: Action) {
    match action
    case Publish(e) => forall other :: other in w.source ==> other.sequenceNumber < e.sequenceNumber
    case StartPass => w.phase.Idle?
    case Refresh => w.phase.Running?
    case Process => w.phase.Running? && w.phase.pending != []
    case Fail => w.phase.Running? && w.phase.pending != []
    case Acknowledge => w.phase.Processed? && w.phase.pending != []
    case Commit => w.phase.Recorded?
    case EndPass => w.phase == Running([])
    case Crash => true
  }

  function Next(settings: Settings, w: World, action: Action): World
    requires Possible(w, action)
  {
    match action
    case Publish(e) => w.(source := w.source + [e])
    case StartPass =>
      var loaded := Loaded(w.tracker, w.streams, DEFAULT);
      if loaded.Failure? then w
      else w.(tracker := loaded.value, phase := Running(Unread(loaded.value, w.source)))
    case Refresh => w.(phase := Running(Unread(w.tracker, w.source)))
    case Process => w.(phase := Processed(w.phase.pending), deliveries := w.deliveries + [w.phase.pending[0]])
    case Fail => w.(phase := Idle)
    case Acknowledge =>
      w.(tracker := Acknowledged(w.tracker, w.phase.pending[0]), phase := Recorded(w.phase.pending[1..]))
    case Commit =>
      var (t, streams) := Committed(settings.interval, w.tracker, w.streams);
      w.(tracker := t, streams := streams, phase := Running(w.phase.pending))
    case EndPass =>
      var (t, streams) :=
        if settings.saveAfterPass then SavedAll(w.tracker, w.streams) else (w.tracker, w.streams);
      w.(tracker := t, streams := streams, phase := Idle)
    case Crash => w.(tracker := FRESH_TRACKER, phase := Idle)
  }

  const START := World([], FRESH_TRACKER, map[], Idle, [])

  predicate Runs(settings: Settings, w: World, actions: seq<Action>)
    decreases |actions|
  {
    actions == [] || (Possible(w, actions[0]) && Runs(settings, Next(settings, w, actions[0]), actions[1..]))
  }

  function After(settings: Settings, w: World, actions: seq<Action>): World
    requires Runs(settings, w, actions)
    decreases |actions|
  {
    if actions == [] then w else After(settings, Next(settings, w, actions[0]), actions[1..])
  }

  // The invariant: how far the checkpoint in the stream, the checkpoint in memory and the
  // deliveries have come.

  datatype Reach = Reach(saved: nat, recorded: nat, delivered: nat)

  ghost predicate StreamAt(w: World, saved: nat)
    requires saved <= |w.source|
  {
    var events := StreamOf(w.streams, DEFAULT);
    if saved == 0 then events == []
    else events != [] && events[|events| - 1] == Serialise(EventToState(w.source[saved - 1]))
  }

  ghost predicate MemoryAt(w: World, reach: Reach)
    requires reach.recorded <= |w.source|
  {
    && LagOf(w.tracker, DEFAULT) == reach.recorded - reach.saved
    && Expected(w.tracker, w.streams, DEFAULT) == TailPosition(w.streams, DEFAULT)
    && match StateOf(w.tracker, DEFAULT)
       case None => reach.recorded == reach.saved && (w.phase.Idle? || reach.saved == 0)
       case Some(state) => reach.recorded > 0 && state == EventToState(w.source[reach.recorded - 1])
  }

  ghost predicate PendingAt(w: World, reach: Reach)
    requires reach.recorded <= |w.source|
  {
    match w.phase
    case Idle => true
    case Running(pending) => pending <= w.source[reach.recorded..]
    case Processed(pending) =>
      pending != [] && pending <= w.source[reach.recorded..] && reach.delivered > reach.recorded
    case Recorded(pending) => pending <= w.source[reach.recorded..]
  }

  /** With interval k, memory is ahead of the stream by less than k, or by k just before committing. */
  ghost predicate Bounded(settings: Settings, w: World, reach: Reach) {
    settings.interval.Some? && settings.interval.value > 0 ==>
      && reach.recorded - reach.saved <= settings.interval.value - (if w.phase.Recorded? then 0 else 1)
      && reach.delivered - reach.saved <= settings.interval.value
  }

  ghost predicate Delivered(w: World, n: nat)
    requires n <= |w.source|
  {
    forall e :: e in w.deliveries <==> e in w.source[..n]
  }

  ghost predicate Invariant(settings: Settings, w: World, reach: Reach) {
    && Increasing(w.source)
    && reach.saved <= reach.recorded <= reach.delivered <= |w.source|
    && StreamAt(w, reach.saved) && MemoryAt(w, reach) && PendingAt(w, reach)
    && Bounded(settings, w, reach) && Delivered(w, reach.delivered)
  }

  lemma UnreadIsRest(w: World, reach: Reach)
    requires Increasing(w.source) && reach.recorded <= |w.source|
    requires match StateOf(w.tracker, DEFAULT)
             case None => reach.recorded == 0
             case Some(state) => reach.recorded > 0 && state == EventToState(w.source[reach.recorded - 1])
    ensures Unread(w.tracker, w.source) == w.source[reach.recorded..]
  {
    if reach.recorded > 0 {
      AcceptedAfter(w.source, reach.recorded);
    }
  }

  lemma PublishKeeps(settings: Settings, w: World, reach: Reach, e: StoredEvent)
    requires Invariant(settings, w, reach) && Possible(w, Publish(e))
    ensures Invariant(settings, Next(settings, w, Publish(e)), reach)
  {
    var w' := Next(settings, w, Publish(e));
    forall i, j | 0 <= i < j < |w'.source| ensures w'.source[i].sequenceNumber < w'.source[j].sequenceNumber {
      assert w'.source[i] in w.source;
    }
    assert w'.source[reach.recorded..] == w.source[reach.recorded..] + [e];
    assert w'.source[..reach.delivered] == w.source[..reach.delivered];
  }

  lemma StartKeeps(settings: Settings, w: World, reach: Reach)
    requires Invariant(settings, w, reach) && Possible(w, StartPass)
    ensures Next(settings, w, StartPass).phase.Running? && Invariant(settings, Next(settings, w, StartPass), reach)
  {
    if StateOf(w.tracker, DEFAULT).None? && reach.saved > 0 {
      RoundTrip(EventToState(w.source[reach.saved - 1]));
    }
    var loaded := Loaded(w.tracker, w.streams, DEFAULT).value;
    UnreadIsRest(w.(tracker := loaded), reach);
  }

  lemma ProcessKeeps(settings: Settings, w: World, reach: Reach) returns (reach': Reach)
    requires Invariant(settings, w, reach) && Possible(w, Process)
    ensures Invariant(settings, Next(settings, w, Process), reach')
    ensures reach'.saved == reach.saved && reach'.recorded == reach.recorded
    ensures reach'.delivered ==
      if reach.delivered == reach.recorded then reach.delivered + 1 else reach.delivered
  {
    var e := w.phase.pending[0];
    assert e == w.source[reach.recorded];
    if reach.delivered == reach.recorded {
      reach' := reach.(delivered := reach.delivered + 1);
      assert w.source[..reach.delivered + 1] == w.source[..reach.delivered] + [e];
    } else {
      reach' := reach;
      assert e in w.source[..reach.delivered];
    }
  }

  lemma AcknowledgeKeeps(settings: Settings, w: World, reach: Reach)
    requires Invariant(settings, w, reach) && Possible(w, Acknowledge)
    ensures Invariant(settings, Next(settings, w, Acknowledge), reach.(recorded := reach.recorded + 1))
  {
  }

  /** Saving brings the stream up to what memory has recorded. */
  lemma SaveKeeps(w: World, reach: Reach, w': World)
    requires Increasing(w.source) && reach.saved <= reach.recorded <= |w.source|
    requires StreamAt(w, reach.saved) && MemoryAt(w, reach)
    requires w'.source == w.source && w'.phase == w.phase
    requires var (t, streams) := Saved(w.tracker, w.streams, DEFAULT);
      SameAt(w'.tracker, w'.streams, t, streams, DEFAULT)
    ensures StreamAt(w', reach.recorded) && MemoryAt(w', reach.(saved := reach.recorded))
  {
  }

  lemma CommitKeeps(settings: Settings, w: World, reach: Reach) returns (reach': Reach)
    requires Invariant(settings, w, reach) && Possible(w, Commit)
    ensures Invariant(settings, Next(settings, w, Commit), reach')
    ensures reach'.delivered == reach.delivered && reach'.recorded == reach.recorded
  {
    reach' := reach;
    if Due(settings.interval, w.tracker, DEFAULT) {
      reach' := reach.(saved := reach.recorded);
      SaveKeeps(w, reach, w.(tracker := Saved(w.tracker, w.streams, DEFAULT).0,
                             streams := Saved(w.tracker, w.streams, DEFAULT).1));
    }
  }

  lemma EndKeeps(settings: Settings, w: World, reach: Reach) returns (reach': Reach)
    requires Invariant(settings, w, reach) && Possible(w, EndPass)
    ensures Invariant(settings, Next(settings, w, EndPass), reach')
    ensures reach' == if settings.saveAfterPass then reach.(saved := reach.recorded) else reach
  {
    reach' := reach;
    if settings.saveAfterPass {
      reach' := reach.(saved := reach.recorded);
      SavedAllAt(w.tracker, w.streams, DEFAULT);
      SaveKeeps(w, reach, w.(tracker := SavedAll(w.tracker, w.streams).0, streams := SavedAll(w.tracker, w.streams).1));
    }
  }

  lemma NextKeeps(settings: Settings, w: World, reach: Reach, action: Action) returns (reach': Reach)
    requires Invariant(settings, w, reach) && Possible(w, action)
    ensures Invariant(settings, Next(settings, w, action), reach')
  {
    reach' := reach;
    match action
    case Publish(e) => PublishKeeps(settings, w, reach, e);
    case StartPass => StartKeeps(settings, w, reach);
    case Refresh => UnreadIsRest(w, reach);
    case Process => reach' := ProcessKeeps(settings, w, reach);
    case Fail =>
    case Acknowledge =>
      AcknowledgeKeeps(settings, w, reach);
      reach' := reach.(recorded := reach.recorded + 1);
    case Commit => reach' := CommitKeeps(settings, w, reach);
    case EndPass => reach' := EndKeeps(settings, w, reach);
    case Crash =>
      CrashKeeps(settings, w, reach);
      reach' := reach.(recorded := reach.saved);
  }

  lemma {:induction false} RunKeeps(
      settings: Settings, w: World, reach: Reach, actions: seq<Action>) returns (reach': Reach)
    requires Invariant(settings, w, reach) && Runs(settings, w, actions)
    ensures Invariant(settings, After(settings, w, actions), reach')
    decreases |actions|
  {
    reach' := reach;
    if actions != [] {
      reach' := NextKeeps(settings, w, reach, actions[0]);
      reach' := RunKeeps(settings, Next(settings, w, actions[0]), reach', actions[1..]);
    }
  }

  // A pass of the consumer is a run of these actions.

  lemma {:induction false} RunsConcat(settings: Settings, w: World, a: seq<Action>, b: seq<Action>)
    requires Runs(settings, w, a) && Runs(settings, After(settings, w, a), b)
    ensures Runs(settings, w, a + b)
    ensures After(settings, w, a + b) == After(settings, After(settings, w, a), b)
    decreases |a|
  {
    if a == [] {
      assert a + b == b;
    } else {
      assert (a + b)[1..] == a[1..] + b;
      RunsConcat(settings, Next(settings, w, a[0]), a[1..], b);
    }
  }

  lemma OneAction(settings: Settings, w: World, action: Action)
    requires Possible(w, action)
    ensures Runs(settings, w, [action]) && After(settings, w, [action]) == Next(settings, w, action)
  {
    assert [action][1..] == [];
  }

  const ONE_EVENT := [Process, Acknowledge, Commit]

  function Handling(n: nat): seq<Action> {
    if n == 0 then [] else Handling(n - 1) + ONE_EVENT
  }

  function AfterHandling(settings: Settings, w: World, n: nat): World
    requires w.phase.Running? && n <= |w.phase.pending|
  {
    var (t, streams) := Handled(settings.interval, w.tracker, w.streams, w.phase.pending[..n]);
    World(w.source, t, streams, Running(w.phase.pending[n..]), w.deliveries + w.phase.pending[..n])
  }

  function AfterOne(settings: Settings, w: World): World
    requires w.phase.Running? && w.phase.pending != []
  {
    var (t, streams) := Committed(settings.interval, Acknowledged(w.tracker, w.phase.pending[0]), w.streams);
    World(w.source, t, streams, Running(w.phase.pending[1..]), w.deliveries + [w.phase.pending[0]])
  }

  lemma OneEventRuns(settings: Settings, w: World)
    requires w.phase.Running? && w.phase.pending != []
    ensures Runs(settings, w, ONE_EVENT) && After(settings, w, ONE_EVENT) == AfterOne(settings, w)
  {
    var processed := Next(settings, w, Process);
    var recorded := Next(settings, processed, Acknowledge);
    OneAction(settings, recorded, Commit);
    assert [Acknowledge, Commit][1..] == [Commit];
    assert ONE_EVENT[1..] == [Acknowledge, Commit];
  }

  lemma HandlingNext(settings: Settings, w: World, n: nat)
    requires w.phase.Running? && n < |w.phase.pending|
    ensures AfterHandling(settings, w, n + 1) == AfterOne(settings, AfterHandling(settings, w, n))
  {
    var pending := w.phase.pending;
    assert pending[..n + 1][..n] == pending[..n] && pending[n..][1..] == pending[n + 1..];
    assert pending[..n + 1] == pending[..n] + [pending[n]];
  }

  lemma HandlingNothing(settings: Settings, w: World)
    requires w.phase.Running?
    ensures AfterHandling(settings, w, 0) == w
  {
    assert w.phase.pending[0..] == w.phase.pending && w.deliveries + w.phase.pending[..0] == w.deliveries;
  }

  lemma {:induction false} HandlingRuns(settings: Settings, w: World, n: nat)
    requires w.phase.Running? && n <= |w.phase.pending|
    ensures Runs(settings, w, Handling(n)) && After(settings, w, Handling(n)) == AfterHandling(settings, w, n)
  {
    if n == 0 {
      HandlingNothing(settings, w);
    } else {
      HandlingRuns(settings, w, n - 1);
      OneEventRuns(settings, AfterHandling(settings, w, n - 1));
      RunsConcat(settings, w, Handling(n - 1), ONE_EVENT);
      HandlingNext(settings, w, n - 1);
    }
  }

  /** The actions of a pass that handles n events and then ends or fails. */
  function Pass(n: nat, end: Action): seq<Action> {
    [StartPass] + Handling(n) + [end]
  }

  /** What `ConsumeAll` leaves in the store and the streams is what the run of its pass leaves. */
  lemma ConsumeAllIsRun(
    settings: Settings, w: World, t: Tracker, processor: StoredEvent -> bool, handled: nat, r: Result<(), PassError>,
    t': Tracker, streams': Streams)
    requires w.phase.Idle? && Loaded(w.tracker, w.streams, DEFAULT) == Success(t)
    requires Passed(settings, t, w.streams, Unread(t, w.source), processor, handled, r, t', streams')
    requires r.Success? || r.error.ProcessorFailed?
    ensures var actions := Pass(handled, if r.Success? then EndPass else Fail);
      && Runs(settings, w, actions)
      && After(settings, w, actions) ==
           World(w.source, t', streams', Idle, w.deliveries + Unread(t, w.source)[..handled])
  {
    PassRuns(settings, w, handled, if r.Success? then EndPass else Fail);
  }

  lemma PassRuns(settings: Settings, w: World, n: nat, end: Action)
    requires w.phase.Idle? && Next(settings, w, StartPass).phase.Running?
    requires n <= |Next(settings, w, StartPass).phase.pending|
    requires Possible(AfterHandling(settings, Next(settings, w, StartPass), n), end)
    ensures Runs(settings, w, Pass(n, end))
    ensures After(settings, w, Pass(n, end))
         == Next(settings, AfterHandling(settings, Next(settings, w, StartPass), n), end)
  {
    var started := Next(settings, w, StartPass);
    OneAction(settings, w, StartPass);
    HandlingRuns(settings, started, n);
    RunsConcat(settings, w, [StartPass], Handling(n));
    OneAction(settings, AfterHandling(settings, started, n), end);
    RunsConcat(settings, w, [StartPass] + Handling(n), [end]);
  }

  lemma {:induction false} HandlingReaches(settings: Settings, w: World, reach: Reach, n: nat) returns (reach': Reach)
    requires Invariant(settings, w, reach) && w.phase.Running? && n <= |w.phase.pending|
    ensures Invariant(settings, AfterHandling(settings, w, n), reach') && reach'.recorded == reach.recorded + n
  {
    reach' := reach;
    if n == 0 {
      HandlingNothing(settings, w);
    } else {
      reach' := HandlingReaches(settings, w, reach, n - 1);
      reach' := OneEventReaches(settings, AfterHandling(settings, w, n - 1), reach');
      HandlingNext(settings, w, n - 1);
    }
  }

  lemma OneEventReaches(settings: Settings, w: World, reach: Reach) returns (reach': Reach)
    requires Invariant(settings, w, reach) && w.phase.Running? && w.phase.pending != []
    ensures Invariant(settings, AfterOne(settings, w), reach') && reach'.recorded == reach.recorded + 1
  {
    var processed := Next(settings, w, Process);
    reach' := ProcessKeeps(settings, w, reach);
    AcknowledgeKeeps(settings, processed, reach');
    reach' := CommitKeeps(
      settings, Next(settings, processed, Acknowledge), reach'.(recorded := reach'.recorded + 1));
  }

  // What it is for.

  lemma StartInvariant(settings: Settings)
    ensures Invariant(settings, START, Reach(0, 0, 0))
  {
  }

  lemma Reached(settings: Settings, actions: seq<Action>) returns (reach: Reach)
    requires Runs(settings, START, actions)
    ensures Invariant(settings, After(settings, START, actions), reach)
  {
    StartInvariant(settings);
    reach := RunKeeps(settings, START, Reach(0, 0, 0), actions);
  }

  /** Exactly the first so many events of the source have been handled. */
  ghost predicate HandledFromTheStart(w: World) {
    exists n: nat :: n <= |w.source| && Delivered(w, n)
  }

  /** In every run, the events ever processed are a beginning of the source: none is skipped. */
  lemma NoEventIsSkipped(settings: Settings, actions: seq<Action>)
    requires Runs(settings, START, actions)
    ensures Increasing(After(settings, START, actions).source)
    ensures HandledFromTheStart(After(settings, START, actions))
  {
    var reach := Reached(settings, actions);
    InvariantHandles(settings, After(settings, START, actions), reach);
  }

  lemma InvariantHandles(settings: Settings, w: World, reach: Reach)
    requires Invariant(settings, w, reach)
    ensures Increasing(w.source) && HandledFromTheStart(w)
  {
    assert Delivered(w, reach.delivered);
  }

  /** The events handled before that a pass would read again. */
  function Repeats(w: World, pending: seq<StoredEvent>): seq<StoredEvent> {
    Filter((e: StoredEvent) => e in w.deliveries, pending)
  }

  /**
   With a persistence interval k of at least one, a crash at any moment of any run makes the
   next pass read at most k events again that were handled before.
   */
  lemma CrashRepeatsAtMostTheInterval(settings: Settings, actions: seq<Action>, k: nat)
    requires Runs(settings, START, actions) && settings.interval == Some(k) && k >= 1
    ensures var crashed := Next(settings, After(settings, START, actions), Crash);
      var resumed := Next(settings, crashed, StartPass);
      resumed.phase.Running? && |Repeats(resumed, resumed.phase.pending)| <= k
  {
    var reach := Reached(settings, actions);
    CrashRepeats(settings, After(settings, START, actions), reach, k);
  }

  /**
   A pass that handles all it read and saves at its end leaves nothing to repeat: after a crash
   the next pass reads only what is published later.
   */
  lemma SavedPassRepeatsNothing(settings: Settings, actions: seq<Action>)
    requires Runs(settings, START, actions) && settings.saveAfterPass
    requires After(settings, START, actions).phase.Idle?
    ensures Next(settings, After(settings, START, actions), StartPass).phase.Running?
    ensures var w := After(settings, START, actions);
      var pass := Pass(|Next(settings, w, StartPass).phase.pending|, EndPass);
      && Runs(settings, w, pass)
      && var resumed := Next(settings, Next(settings, After(settings, w, pass), Crash), StartPass);
        resumed.phase == Running([])
  {
    var reach := Reached(settings, actions);
    FullPass(settings, After(settings, START, actions), reach);
  }

  lemma FullPass(settings: Settings, w: World, reach: Reach)
    requires Invariant(settings, w, reach) && w.phase.Idle? && settings.saveAfterPass
    ensures var started := Next(settings, w, StartPass);
      && started.phase.Running?
      && var pass := Pass(|started.phase.pending|, EndPass);
      && Runs(settings, w, pass)
      && Next(settings, Next(settings, After(settings, w, pass), Crash), StartPass).phase == Running([])
  {
    var started := Next(settings, w, StartPass);
    StartKeeps(settings, w, reach);
    StartReadsRest(settings, w, reach);
    var n := |started.phase.pending|;
    var handled := AfterHandling(settings, started, n);
    var reach' := HandlingReaches(settings, started, reach, n);
    PassRuns(settings, w, n, EndPass);
    var ended := Next(settings, handled, EndPass);
    reach' := EndKeeps(settings, handled, reach');
    CrashKeeps(settings, ended, reach');
    StartReadsRest(settings, Next(settings, ended, Crash), reach'.(recorded := reach'.saved));
  }

  lemma CrashRepeats(settings: Settings, w: World, reach: Reach, k: nat)
    requires Invariant(settings, w, reach) && settings.interval == Some(k) && k >= 1
    ensures var resumed := Next(settings, Next(settings, w, Crash), StartPass);
      resumed.phase.Running? && |Repeats(resumed, resumed.phase.pending)| <= k
  {
    var crashed := Next(settings, w, Crash);
    var resumed := Next(settings, crashed, StartPass);
    var reach' := reach.(recorded := reach.saved);
    CrashKeeps(settings, w, reach);
    StartKeeps(settings, crashed, reach');
    StartReadsRest(settings, crashed, reach');
    AtMostUnsaved(resumed, reach);
  }

  lemma CrashKeeps(settings: Settings, w: World, reach: Reach)
    requires Invariant(settings, w, reach)
    ensures Invariant(settings, Next(settings, w, Crash), reach.(recorded := reach.saved))
  {
  }

  lemma StartReadsRest(settings: Settings, w: World, reach: Reach)
    requires Invariant(settings, w, reach) && w.phase.Idle?
    ensures Next(settings, w, StartPass).phase == Running(w.source[reach.recorded..])
  {
    if StateOf(w.tracker, DEFAULT).None? && reach.saved > 0 {
      RoundTrip(EventToState(w.source[reach.saved - 1]));
    }
    UnreadIsRest(w.(tracker := Loaded(w.tracker, w.streams, DEFAULT).value), reach);
  }

  lemma UndeliveredRest(w: World, n: nat)
    requires Increasing(w.source) && n <= |w.source| && Delivered(w, n)
    ensures forall e :: e in w.source[n..] ==> e !in w.deliveries
  {
    forall e | e in w.source[n..] ensures e !in w.source[..n] {
      var i :| n <= i < |w.source| && w.source[i] == e;
      forall j | 0 <= j < n ensures w.source[j] != e {
        assert w.source[j].sequenceNumber < w.source[i].sequenceNumber;
      }
    }
  }

  lemma AtMostUnsaved(w: World, reach: Reach)
    requires Increasing(w.source) && reach.saved <= reach.delivered <= |w.source| && Delivered(w, reach.delivered)
    ensures |Repeats(w, w.source[reach.saved..])| <= reach.delivered - reach.saved
  {
    var p := (e: StoredEvent) => e in w.deliveries;
    var again, rest := w.source[reach.saved..reach.delivered], w.source[reach.delivered..];
    assert w.source[reach.saved..] == again + rest;
    FilterConcat(p, again, rest);
    UndeliveredRest(w, reach.delivered);
    FilterNone(p, rest);
  }
}
