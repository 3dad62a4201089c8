/** What holds of every interleaving of any number of saves. */
module SaveLaws {
  import opened Prelude
  import opened Events
  import opened EventsDb
  import opened Conditions
  import opened LockNames
  import opened Saves
  import opened SaveContents
  import opened SaveOrder

  ghost predicate AllValid(saves: seq<Save>) {
    forall i :: 0 <= i < |saves| ==> saves[i].Valid()
  }

  ghost predicate Invariant(g: Guarantee, s: State) {
    Sound(g, s) && Numbered(g, s)
  }

  lemma Reachable(g: Guarantee, saves: seq<Save>, schedule: seq<nat>)
    requires AllValid(saves)
    ensures Invariant(g, Run(g, Start(saves), schedule))
  {
    StartSound(g, saves);
    StartNumbered(g, saves);
    RunKeepsSound(g, Start(saves), schedule);
    RunKeepsNumbered(g, Start(saves), schedule);
  }

  // Order.

  /** Whether all events of the source are protected by one lock. */
  predicate Serialises(g: Guarantee, source: EventSource) {
    match g
    case LogGuarantee => true
    case CategoryGuarantee => !source.Log?
    case StreamGuarantee => source.Stream?
  }

  lemma IncreasingCons(first: StoredEvent, rest: seq<StoredEvent>)
    requires Increasing(rest) && forall e :: e in rest ==> first.sequenceNumber < e.sequenceNumber
    ensures Increasing([first] + rest)
  {
  }

  lemma {:induction false} IncreasingFilter(source: EventSource, log: seq<StoredEvent>)
    requires forall i, j :: 0 <= i < j < |log| && source.Holds(log[i]) && source.Holds(log[j]) ==>
      log[i].sequenceNumber < log[j].sequenceNumber
    ensures Increasing(EventsOf(source, log))
  {
    if log != [] {
      var rest := log[1..];
      forall i, j | 0 <= i < j < |rest| && source.Holds(rest[i]) && source.Holds(rest[j])
        ensures rest[i].sequenceNumber < rest[j].sequenceNumber
      {
        assert rest[i] == log[i + 1] && rest[j] == log[j + 1];
      }
      IncreasingFilter(source, rest);
      if source.Holds(log[0]) {
        forall e | e in EventsOf(source, rest) ensures log[0].sequenceNumber < e.sequenceNumber {
          var j :| 0 <= j < |rest| && rest[j] == e;
          assert log[j + 1] == e;
        }
        IncreasingCons(log[0], EventsOf(source, rest));
      }
    }
  }

  /** The index at the scope of serialisation, and every finer one, increases in sequence number. */
  lemma IndexesIncrease(g: Guarantee, saves: seq<Save>, schedule: seq<nat>, source: EventSource)
    requires AllValid(saves) && Serialises(g, source)
    ensures Increasing(EventsOf(source, Run(g, Start(saves), schedule).log))
  {
    Reachable(g, saves, schedule);
    OrderedIndex(g, source, Run(g, Start(saves), schedule).log);
  }

  lemma OrderedIndex(g: Guarantee, source: EventSource, log: seq<StoredEvent>)
    requires OrderedByLock(g, log) && Serialises(g, source)
    ensures Increasing(EventsOf(source, log))
  {
    forall i, j | 0 <= i < j < |log| && source.Holds(log[i]) && source.Holds(log[j])
      ensures log[i].sequenceNumber < log[j].sequenceNumber
    {
      assert EventLock(g, log[i]) == EventLock(g, log[j]);
    }
    IncreasingFilter(source, log);
  }

  lemma {:induction false} LogOnlyGrows(g: Guarantee, s: State, schedule: seq<nat>)
    ensures s.log <= Run(g, s, schedule).log
    decreases |schedule|
  {
    if schedule != [] {
      var p := schedule[0];
      if Enabled(g, s, p) {
        StepLog(g, s, p);
        LogOnlyGrows(g, Step(g, s, p), schedule[1..]);
      } else {
        LogOnlyGrows(g, s, schedule[1..]);
      }
    }
  }

  /**
   A reader of the source that resumes after the last number it saw reads exactly what was
   committed to the source since.
   */
  ghost predicate Resumes(g: Guarantee, source: EventSource, saves: seq<Save>, before: seq<nat>, schedule: seq<nat>) {
    var s := Run(g, Start(saves), before);
    var seen, events := EventsOf(source, s.log), EventsOf(source, Run(g, s, schedule).log);
    seen != [] ==>
      && seen <= events
      && Accepted({SequenceNumberAfter(seen[|seen| - 1].sequenceNumber)}, events) == events[|seen|..]
  }

  lemma ResumingReaderMissesNothing(
    g: Guarantee, saves: seq<Save>, before: seq<nat>, schedule: seq<nat>, source: EventSource)
    requires AllValid(saves) && Serialises(g, source)
    ensures Resumes(g, source, saves, before, schedule)
  {
    var s := Run(g, Start(saves), before);
    var log := Run(g, s, schedule).log;
    Reachable(g, saves, before);
    RunKeepsSound(g, s, schedule);
    RunKeepsNumbered(g, s, schedule);
    LogOnlyGrows(g, s, schedule);
    OrderedIndex(g, source, log);
    ResumesAfterSeen(source, s.log, log);
  }

  lemma ResumesAfterSeen(source: EventSource, before: seq<StoredEvent>, log: seq<StoredEvent>)
    requires before <= log && Increasing(EventsOf(source, log))
    ensures var seen, events := EventsOf(source, before), EventsOf(source, log);
      seen != [] ==>
        && seen <= events
        && Accepted({SequenceNumberAfter(seen[|seen| - 1].sequenceNumber)}, events) == events[|seen|..]
  {
    var seen, events := EventsOf(source, before), EventsOf(source, log);
    assert log == before + log[|before|..];
    EventsOfConcat(source, before, log[|before|..]);
    if seen != [] {
      assert seen[|seen| - 1] == events[|seen| - 1];
      AcceptedAfter(events, |seen|);
    }
  }

  // The database.

  /** The in-memory database built from the commits answers as the commit log does. */
  lemma DatabaseRepresentsCommits(g: Guarantee, saves: seq<Save>, schedule: seq<nat>)
    requires AllValid(saves)
    ensures var log := Run(g, Start(saves), schedule).log;
      Represents(AddAll(EMPTY_DB, log), log)
  {
    Reachable(g, saves, schedule);
    CommitsAreRepresented(Run(g, Start(saves), schedule).log);
  }

  lemma PositionsAreContiguous(
    g: Guarantee, saves: seq<Save>, schedule: seq<nat>, category: string, stream: string)
    requires AllValid(saves)
    ensures Contiguous(EventsOf(Stream(category, stream), Run(g, Start(saves), schedule).log))
  {
    Reachable(g, saves, schedule);
  }

  // Atomicity and conditions.

  ghost predicate WithinSave(save: Save, e: StoredEvent) {
    e.category == save.category && exists k :: 0 <= k < |save.Parts()| && save.Parts()[k].stream == e.stream
  }

  /** Everything a save asked for, on top of `before`, and nothing else. */
  ghost predicate WritesAll(before: seq<StoredEvent>, save: Save, added: seq<StoredEvent>) {
    && (forall k :: 0 <= k < |save.Parts()| ==>
          Written(before, Stream(save.category, save.Parts()[k].stream), save.Parts()[k].events, added))
    && (forall e :: e in added ==> WithinSave(save, e))
  }

  ghost predicate ConditionsHold(before: seq<StoredEvent>, save: Save) {
    forall k :: 0 <= k < |save.Parts()| ==>
      Holds(save.Parts()[k].condition, Tail(LatestOf(Stream(save.category, save.Parts()[k].stream), before)))
  }

  lemma MetWritesAll(before: seq<StoredEvent>, p: Process)
    requires Met(before, p)
    ensures WritesAll(before, p.save, p.added) && ConditionsHold(before, p.save)
  {
  }

  /**
   In any reachable state a step leaves the log alone, or it commits a save: then its
   conditions hold of the streams as they are at that moment, and all its events go in.
   */
  lemma StepIsAtomic(g: Guarantee, saves: seq<Save>, schedule: seq<nat>, p: nat)
    requires AllValid(saves) && Enabled(g, Run(g, Start(saves), schedule), p)
    ensures var s := Run(g, Start(saves), schedule);
      var s' := Step(g, s, p);
      if s'.processes[p].stage.Committed? then
        exists added :: s'.log == s.log + added
          && WritesAll(s.log, s.processes[p].save, added) && ConditionsHold(s.log, s.processes[p].save)
      else s'.log == s.log
  {
    var s := Run(g, Start(saves), schedule);
    var process := s.processes[p];
    Reachable(g, saves, schedule);
    StepLog(g, s, p);
    if Step(g, s, p).processes[p].stage.Committed? {
      assert Content(g, s.log, process);
      assert Met(s.log, process);
      MetWritesAll(s.log, process);
    }
  }

  /** A committed save found each of its streams as long as its condition asks: empty for `EmptyStream`. */
  lemma CommitFindsAskedLength(g: Guarantee, saves: seq<Save>, schedule: seq<nat>, p: nat, k: nat)
    requires AllValid(saves) && Enabled(g, Run(g, Start(saves), schedule), p)
    requires Step(g, Run(g, Start(saves), schedule), p).processes[p].stage.Committed?
    requires k < |Run(g, Start(saves), schedule).processes[p].save.Parts()|
    ensures var s := Run(g, Start(saves), schedule);
      var save := s.processes[p].save;
      var asked := AskedLength(save.Parts()[k].condition);
      asked.Some? ==> |EventsOf(Stream(save.category, save.Parts()[k].stream), s.log)| == asked.value
  {
    var s := Run(g, Start(saves), schedule);
    var save := s.processes[p].save;
    StepIsAtomic(g, saves, schedule, p);
    Reachable(g, saves, schedule);
    LengthAsked(s.log, save.category, save.Parts()[k]);
  }

  /** The latest event a save has read is still the latest when it checks its condition. */
  lemma ReadsNeverGoStale(g: Guarantee, saves: seq<Save>, schedule: seq<nat>, p: nat)
    requires AllValid(saves) && p < |Run(g, Start(saves), schedule).processes|
    requires Run(g, Start(saves), schedule).processes[p].stage.Reading?
    ensures var s := Run(g, Start(saves), schedule);
      var Reading(part, latest) := s.processes[p].stage;
      part < |s.processes[p].save.Parts()| && latest == LatestOf(s.processes[p].Source(part), s.log)
  {
    var s := Run(g, Start(saves), schedule);
    Reachable(g, saves, schedule);
    assert Content(g, s.log, s.processes[p]);
  }

  // Racing saves.

  /** That the stream is empty claims the same as that it has no last position. */
  predicate PartClaims(part: Part, stream: string, position: Option<int>) {
    && part.stream == stream && part.events != []
    && (part.condition == PositionIs(position) || (part.condition == EmptyStream && position == None))
  }

  /** A save that appends to the stream, provided its last position is `position`. */
  ghost predicate Claims(save: Save, category: string, stream: string, position: Option<int>) {
    save.category == category && exists k :: 0 <= k < |save.Parts()| && PartClaims(save.Parts()[k], stream, position)
  }

  /** Of any number of racing saves that claim the same position of a stream, at most one succeeds. */
  lemma AtMostOneWins(
    g: Guarantee, saves: seq<Save>, schedule: seq<nat>, p: nat, q: nat,
    category: string, stream: string, position: Option<int>)
    requires AllValid(saves) && p < |saves| && q < |saves| && p != q
    requires Claims(saves[p], category, stream, position) && Claims(saves[q], category, stream, position)
    ensures var s := Run(g, Start(saves), schedule);
      |s.processes| == |saves| && !(s.processes[p].stage.Committed? && s.processes[q].stage.Committed?)
  {
    var s := Run(g, Start(saves), schedule);
    Reachable(g, saves, schedule);
    SavesKept(g, Start(saves), schedule);
    if s.processes[p].stage.Committed? && s.processes[q].stage.Committed? {
      BothRecorded(g, s, p, q);
      NotBoth(s.log, s.processes[p].stage.at, s.processes[p], s.processes[q].stage.at, s.processes[q],
              category, stream, position);
    }
  }

  lemma BothRecorded(g: Guarantee, s: State, p: nat, q: nat)
    requires Invariant(g, s) && p < |s.processes| && q < |s.processes| && p != q
    requires s.processes[p].stage.Committed? && s.processes[q].stage.Committed?
    ensures Recorded(s.log, s.processes[p].stage.at, s.processes[p])
    ensures Recorded(s.log, s.processes[q].stage.at, s.processes[q])
    ensures Apart(s.processes[p].added, s.processes[q].added)
    ensures AllContiguous(s.log)
  {
    assert Content(g, s.log, s.processes[p]) && Content(g, s.log, s.processes[q]);
    assert NumberedPair(s, p, q);
  }

  lemma {:induction false} SavesKept(g: Guarantee, s: State, schedule: seq<nat>)
    ensures |Run(g, s, schedule).processes| == |s.processes|
    ensures forall p :: 0 <= p < |s.processes| ==> Run(g, s, schedule).processes[p].save == s.processes[p].save
    decreases |schedule|
  {
    if schedule != [] {
      var p := schedule[0];
      if Enabled(g, s, p) {
        StepOnlyMoves(g, s, p);
        SavesKept(g, Step(g, s, p), schedule[1..]);
      } else {
        SavesKept(g, s, schedule[1..]);
      }
    }
  }

  /** At index `at` of the log went in `added`, which found the source at `position` and left it longer. */
  ghost predicate Settled(
    log: seq<StoredEvent>, source: EventSource, position: Option<int>, at: nat, added: seq<StoredEvent>)
  {
    && added != [] && at + |added| <= |log| && log[at..at + |added|] == added
    && Tail(LatestOf(source, log[..at])) == position
    && |EventsOf(source, log[..at + |added|])| > |EventsOf(source, log[..at])|
  }

  ghost predicate Recorded(log: seq<StoredEvent>, at: nat, p: Process) {
    at + |p.added| <= |log| && log[at..at + |p.added|] == p.added && Met(log[..at], p)
  }

  lemma ClaimSettled(
    log: seq<StoredEvent>, at: nat, p: Process, category: string, stream: string, position: Option<int>)
    requires Recorded(log, at, p)
    requires Claims(p.save, category, stream, position)
    ensures Settled(log, Stream(category, stream), position, at, p.added)
  {
    var source := Stream(category, stream);
    var k :| 0 <= k < |p.save.Parts()| && PartClaims(p.save.Parts()[k], stream, position);
    assert p.Source(k) == source;
    MetSettles(log[..at], p, k, position);
    SettledFrom(log, source, position, at, p.added);
  }

  lemma SettledFrom(
    log: seq<StoredEvent>, source: EventSource, position: Option<int>, at: nat, added: seq<StoredEvent>)
    requires at + |added| <= |log| && log[at..at + |added|] == added
    requires Tail(LatestOf(source, log[..at])) == position && EventsOf(source, added) != [] && added != []
    ensures Settled(log, source, position, at, added)
  {
    Appended(log, source, at, added);
  }

  lemma Appended(log: seq<StoredEvent>, source: EventSource, at: nat, added: seq<StoredEvent>)
    requires at + |added| <= |log| && log[at..at + |added|] == added
    ensures EventsOf(source, log[..at + |added|]) == EventsOf(source, log[..at]) + EventsOf(source, added)
  {
    assert log[..at + |added|] == log[..at] + added;
    EventsOfConcat(source, log[..at], added);
  }

  lemma MetSettles(before: seq<StoredEvent>, p: Process, k: nat, position: Option<int>)
    requires Met(before, p) && k < |p.save.Parts()|
    requires PartClaims(p.save.Parts()[k], p.save.Parts()[k].stream, position)
    ensures Tail(LatestOf(p.Source(k), before)) == position && EventsOf(p.Source(k), p.added) != [] && p.added != []
  {
  }

  lemma PrefixContiguous(log: seq<StoredEvent>, source: EventSource, m: nat)
    requires Contiguous(EventsOf(source, log)) && m <= |log|
    ensures Contiguous(EventsOf(source, log[..m]))
  {
    assert log == log[..m] + log[m..];
    EventsOfConcat(source, log[..m], log[m..]);
    assert forall i :: 0 <= i < |EventsOf(source, log[..m])| ==>
      EventsOf(source, log)[i] == EventsOf(source, log[..m])[i];
  }

  lemma PrefixShorter(log: seq<StoredEvent>, source: EventSource, m: nat, n: nat)
    requires m <= n <= |log|
    ensures |EventsOf(source, log[..m])| <= |EventsOf(source, log[..n])|
  {
    assert log[..n] == log[..m] + log[m..n];
    EventsOfConcat(source, log[..m], log[m..n]);
  }

  lemma SettledOnce(
    log: seq<StoredEvent>, source: EventSource, position: Option<int>,
    first: nat, a: seq<StoredEvent>, second: nat, b: seq<StoredEvent>)
    requires Contiguous(EventsOf(source, log)) && first <= second
    requires Settled(log, source, position, first, a) && Settled(log, source, position, second, b)
    ensures second < first + |a| && a[second - first] == b[0]
  {
    if second >= first + |a| {
      PrefixContiguous(log, source, first);
      PrefixContiguous(log, source, second);
      PrefixShorter(log, source, first + |a|, second);
    }
  }

  lemma NotInThisOrder(
    log: seq<StoredEvent>, source: EventSource, position: Option<int>,
    first: nat, a: seq<StoredEvent>, second: nat, b: seq<StoredEvent>)
    requires Contiguous(EventsOf(source, log)) && Apart(a, b)
    requires Settled(log, source, position, first, a) && Settled(log, source, position, second, b)
    ensures second < first
  {
    if first <= second {
      SettledOnce(log, source, position, first, a, second, b);
    }
  }

  lemma NotBoth(
    log: seq<StoredEvent>, i: nat, p: Process, j: nat, q: Process,
    category: string, stream: string, position: Option<int>)
    requires Apart(p.added, q.added) && AllContiguous(log)
    requires Claims(p.save, category, stream, position) && Claims(q.save, category, stream, position)
    ensures !(Recorded(log, i, p) && Recorded(log, j, q))
  {
    if Recorded(log, i, p) && Recorded(log, j, q) {
      var source := Stream(category, stream);
      ClaimSettled(log, i, p, category, stream, position);
      ClaimSettled(log, j, q, category, stream, position);
      NotInThisOrder(log, source, position, i, p.added, j, q.added);
      NotInThisOrder(log, source, position, j, q.added, i, p.added);
    }
  }
}
