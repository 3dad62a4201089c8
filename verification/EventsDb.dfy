/**
 The in-memory event database (store/adapters/memory/db.py): events sit in slots addressed
 by sequence number, found through three indexes. Numbers drawn by saves that never commit
 leave empty slots behind.
 */
module EventsDb {
  import opened Prelude
  import opened Events

  datatype Db = Db(
    events: seq<Option<StoredEvent>>,
    logIndex: seq<nat>,
    categoryIndex: map<string, seq<nat>>,
    streamIndex: map<(string, string), seq<nat>>)

  const EMPTY_DB := Db([], [], map[], map[])

  /** Reading a key a defaultdict does not hold. */
  function Entries<K>(index: map<K, seq<nat>>, key: K): seq<nat> {
    if key in index then index[key] else []
  }

  function Padded(events: seq<Option<StoredEvent>>, number: nat): (r: seq<Option<StoredEvent>>)
    ensures |r| == (if |events| <= number then number + 1 else |events|)
    ensures forall i :: 0 <= i < |r| ==> r[i] == if i < |events| then events[i] else None
  {
    if |events| <= number then events + seq(number - |events| + 1, _ => None) else events
  }

  function AddEvent(db: Db, e: StoredEvent): Db {
    var n := e.sequenceNumber;
    Db(
      Padded(db.events, n)[n := Some(e)],
      db.logIndex + [n],
      db.categoryIndex[e.category := Entries(db.categoryIndex, e.category) + [n]],
      db.streamIndex[(e.category, e.stream) := Entries(db.streamIndex, (e.category, e.stream)) + [n]])
  }

  function SelectIndex(db: Db, source: EventSource): seq<nat> {
    match source
    case Log => db.logIndex
    case Category(category) => Entries(db.categoryIndex, category)
    case Stream(category, stream) => Entries(db.streamIndex, (category, stream))
  }

  /** The database holds exactly the events committed, in order, whatever was drawn in between. */
  ghost predicate Represents(db: Db, log: seq<StoredEvent>) {
    && DistinctNumbers(log)
    && (forall e :: e in log ==> e.sequenceNumber < |db.events| && db.events[e.sequenceNumber] == Some(e))
    && (forall i :: 0 <= i < |db.events| && db.events[i].Some? ==> db.events[i].value in log)
    && (forall source: EventSource :: SelectIndex(db, source) == Numbers(EventsOf(source, log)))
  }

  ghost predicate Unused(e: StoredEvent, log: seq<StoredEvent>) {
    forall other :: other in log ==> other.sequenceNumber != e.sequenceNumber
  }

  lemma EmptyRepresentsNothing()
    ensures Represents(EMPTY_DB, [])
  {
  }

  lemma IndexGrows(db: Db, log: seq<StoredEvent>, e: StoredEvent, source: EventSource)
    requires SelectIndex(db, source) == Numbers(EventsOf(source, log))
    ensures SelectIndex(AddEvent(db, e), source) == Numbers(EventsOf(source, log + [e]))
  {
    EventsOfConcat(source, log, [e]);
    NumbersConcat(EventsOf(source, log), EventsOf(source, [e]));
    if source.Holds(e) {
      EventsOfAll(source, [e]);
      assert Numbers([e]) == [e.sequenceNumber];
    } else {
      EventsOfNone(source, [e]);
    }
    assert source.Log? || source.Category? || source.Stream?;
  }

  lemma AddRepresents(db: Db, log: seq<StoredEvent>, e: StoredEvent)
    requires Represents(db, log) && Unused(e, log)
    ensures Represents(AddEvent(db, e), log + [e])
  {
    forall source: EventSource ensures SelectIndex(AddEvent(db, e), source) == Numbers(EventsOf(source, log + [e])) {
      IndexGrows(db, log, e, source);
    }
    var log', db' := log + [e], AddEvent(db, e);
    forall i | 0 <= i < |db'.events| && db'.events[i].Some? ensures db'.events[i].value in log' {
      if i != e.sequenceNumber {
        assert db'.events[i] == db.events[i];
      }
    }
  }

  function AddAll(db: Db, log: seq<StoredEvent>): Db {
    if log == [] then db else AddEvent(AddAll(db, log[..|log| - 1]), log[|log| - 1])
  }

  /** Any commit order of distinct numbers, however sparse, leaves a database that represents it. */
  lemma {:induction false} CommitsAreRepresented(log: seq<StoredEvent>)
    requires DistinctNumbers(log)
    ensures Represents(AddAll(EMPTY_DB, log), log)
  {
    if log == [] {
      EmptyRepresentsNothing();
    } else {
      var before, e := log[..|log| - 1], log[|log| - 1];
      CommitsAreRepresented(before);
      AddRepresents(AddAll(EMPTY_DB, before), before, e);
      assert log == before + [e];
    }
  }

  /** What every index entry points at. */
  lemma EntryPointsAtItsEvent(db: Db, log: seq<StoredEvent>, source: EventSource, i: nat)
    requires Represents(db, log) && i < |SelectIndex(db, source)|
    ensures var n := SelectIndex(db, source)[i];
      n < |db.events| && db.events[n] == Some(EventsOf(source, log)[i]) && EventsOf(source, log)[i].sequenceNumber == n
  {
  }

  lemma EntryForEachEvent(db: Db, log: seq<StoredEvent>, source: EventSource)
    requires Represents(db, log)
    ensures |SelectIndex(db, source)| == |EventsOf(source, log)|
  {
  }

  lemma LastEntry(db: Db, log: seq<StoredEvent>, source: EventSource, index: seq<nat>)
    requires Represents(db, log) && index == SelectIndex(db, source) != []
    ensures index[|index| - 1] < |db.events| && db.events[index[|index| - 1]] == LatestOf(source, log)
  {
    EntryForEachEvent(db, log, source);
    EntryPointsAtItsEvent(db, log, source, |index| - 1);
  }

  datatype InvalidState = InvalidState

  /** The index points at the slots that hold `expected`. */
  ghost predicate PointsAt(slots: seq<Option<StoredEvent>>, index: seq<nat>, expected: seq<StoredEvent>) {
    && |index| == |expected|
    && forall i :: 0 <= i < |index| ==> index[i] < |slots| && slots[index[i]] == Some(expected[i])
  }

  lemma EntriesPoint(db: Db, log: seq<StoredEvent>, source: EventSource)
    requires Represents(db, log)
    ensures PointsAt(db.events, SelectIndex(db, source), EventsOf(source, log))
  {
    EntryForEachEvent(db, log, source);
    forall i: nat | i < |SelectIndex(db, source)|
      ensures SelectIndex(db, source)[i] < |db.events|
      ensures db.events[SelectIndex(db, source)[i]] == Some(EventsOf(source, log)[i])
    {
      EntryPointsAtItsEvent(db, log, source, i);
    }
  }

  /** Goes through an index and keeps the events that pass every constraint. */
  method AcceptedIn(
    slots: seq<Option<StoredEvent>>, index: seq<nat>, constraints: set<QueryConstraint>,
    ghost expected: seq<StoredEvent>)
    returns (r: Result<seq<StoredEvent>, InvalidState>)
    requires PointsAt(slots, index, expected)
    ensures r == Success(Accepted(constraints, expected))
  {
    var accepted := [];
    for i := 0 to |index|
      invariant accepted == Accepted(constraints, expected[..i])
    {
      var slot := slots[index[i]];
      if slot.None? {
        return Failure(InvalidState);
      }
      AcceptedNext(constraints, expected, i);
      if AcceptedByAll(constraints, slot.value) {
        accepted := accepted + [slot.value];
      }
    }
    assert expected[..|index|] == expected;
    r := Success(accepted);
  }

  class InMemorySequence {
    var value: nat

    constructor (initial: nat := 0)
      ensures value == initial
    {
      value := initial;
    }

    method Next() returns (r: nat)
      modifies this
      ensures r == old(value) && value == r + 1
    {
      r := value;
      value := value + 1;
    }
  }

  class InMemoryEventsDB {
    var events: seq<Option<StoredEvent>>
    var logIndex: seq<nat>
    var categoryIndex: map<string, seq<nat>>
    var streamIndex: map<(string, string), seq<nat>>
    /** Everything committed so far. */
    ghost var log: seq<StoredEvent>

    function Value(): Db
      reads this
    {
      Db(events, logIndex, categoryIndex, streamIndex)
    }

    ghost predicate Valid()
      reads this
    {
      Represents(Value(), log)
    }

    constructor ()
      ensures Valid() && log == []
    {
      events, logIndex, categoryIndex, streamIndex := [], [], map[], map[];
      log := [];
      new;
      EmptyRepresentsNothing();
    }

    constructor Copy(db: InMemoryEventsDB)
      requires db.Valid()
      ensures Valid() && log == db.log && Value() == db.Value()
    {
      events, logIndex, categoryIndex, streamIndex := db.events, db.logIndex, db.categoryIndex, db.streamIndex;
      log := db.log;
    }

    method Snapshot() returns (copy: InMemoryEventsDB)
      requires Valid()
      ensures fresh(copy) && copy.Valid() && copy.log == log
    {
      copy := new InMemoryEventsDB.Copy(this);
    }

    method Add(e: StoredEvent)
      requires Valid() && Unused(e, log)
      modifies this
      ensures Valid() && log == old(log) + [e] && Value() == AddEvent(old(Value()), e)
    {
      AddRepresents(Value(), log, e);
      var n := e.sequenceNumber;
      if |events| <= n {
        events := events + seq(n - |events| + 1, _ => None);
      }
      events := events[n := Some(e)];
      logIndex := logIndex + [n];
      streamIndex := streamIndex[(e.category, e.stream) := Entries(streamIndex, (e.category, e.stream)) + [n]];
      categoryIndex := categoryIndex[e.category := Entries(categoryIndex, e.category) + [n]];
      log := log + [e];
      assert events == Padded(old(events), n)[n := Some(e)];
    }

    /** Scanning is filtering the commit log. */
    method ScanEvents(source: EventSource, constraints: set<QueryConstraint>)
      returns (r: Result<seq<StoredEvent>, InvalidState>)
      requires Valid()
      ensures r == Success(Accepted(constraints, EventsOf(source, log)))
      ensures r.Success? && ScannedExactly(source, constraints, log, r.value)
    {
      EntriesPoint(Value(), log, source);
      r := AcceptedIn(events, SelectIndex(Value(), source), constraints, EventsOf(source, log));
      AcceptedAreScanned(source, constraints, log);
    }

    method StreamEvents(category: string, stream: string) returns (r: Result<seq<StoredEvent>, InvalidState>)
      requires Valid()
      ensures r == Success(EventsOf(Stream(category, stream), log))
    {
      var index := SelectIndex(Value(), Stream(category, stream));
      var found := [];
      ghost var expected := EventsOf(Stream(category, stream), log);
      for i := 0 to |index|
        invariant found == expected[..i]
      {
        EntryPointsAtItsEvent(Value(), log, Stream(category, stream), i);
        var slot := events[index[i]];
        if slot.None? {
          return Failure(InvalidState);
        }
        found := found + [slot.value];
      }
      assert expected[..|index|] == expected;
      r := Success(found);
    }

    method LastEvent(source: EventSource) returns (r: Option<StoredEvent>)
      requires Valid()
      ensures r == LatestOf(source, log)
    {
      var index := SelectIndex(Value(), source);
      EntryForEachEvent(Value(), log, source);
      if index == [] {
        r := None;
      } else {
        LastEntry(Value(), log, source, index);
        r := events[index[|index| - 1]];
      }
    }

    method LastStreamEvent(category: string, stream: string) returns (r: Option<StoredEvent>)
      requires Valid()
      ensures r == LatestOf(Stream(category, stream), log)
    {
      var found := StreamEvents(category, stream);
      r := if found.value == [] then None else Some(found.value[|found.value| - 1]);
    }

    method LastStreamPosition(category: string, stream: string) returns (r: int)
      requires Valid()
      ensures r == PositionOf(LatestOf(Stream(category, stream), log), -1)
    {
      var latest := LastStreamEvent(category, stream);
      r := if latest.None? then -1 else latest.value.position;
    }
  }

  function PositionOf(e: Option<StoredEvent>, absent: int): int {
    if e.None? then absent else e.value.position
  }

  lemma UnusedNext(log: seq<StoredEvent>, added: seq<StoredEvent>, i: nat)
    requires DistinctNumbers(log + added) && i < |added|
    ensures Unused(added[i], log + added[..i])
  {
    var all := log + added;
    assert all[|log| + i] == added[i];
    forall other | other in log + added[..i] ensures other.sequenceNumber != added[i].sequenceNumber {
      var k :| 0 <= k < |log| + i && (log + added[..i])[k] == other;
      assert all[k] == other;
    }
  }

  class Transaction {
    const db: InMemoryEventsDB
    var addedEvents: seq<StoredEvent>

    constructor (db: InMemoryEventsDB)
      ensures this.db == db && addedEvents == []
    {
      this.db := db;
      addedEvents := [];
    }

    method Add(e: StoredEvent)
      modifies this
      ensures addedEvents == old(addedEvents) + [e]
    {
      addedEvents := addedEvents + [e];
    }

    method Commit()
      requires db.Valid() && DistinctNumbers(db.log + addedEvents)
      modifies db
      ensures db.Valid() && db.log == old(db.log) + addedEvents
    {
      ghost var before := db.log;
      for i := 0 to |addedEvents|
        invariant db.Valid() && db.log == before + addedEvents[..i]
      {
        UnusedNext(before, addedEvents, i);
        db.Add(addedEvents[i]);
      }
    }
  }
}
