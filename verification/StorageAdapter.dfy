/**
 The in-memory storage adapter as it runs when nothing interrupts a save
 (store/adapters/memory/adapter.py). Locks, and what happens between the steps of a save when
 others run, are the subject of module Saves.
 */
module StorageAdapter {
  import opened Prelude
  import Values
  import opened Events
  import opened EventsDb
  import opened Conditions
  import opened LockNames
  import opened SaveContents
  import opened SaveOrder
  import Saves

  /** What publishing `events` to a stream stores, given the first free position and number. */
  function Stored(
      category: string, stream: string, events: seq<NewEvent>, position: int, number: nat): (r: seq<StoredEvent>)
    ensures |r| == |events|
    ensures forall i :: 0 <= i < |r| ==> r[i] == StoredEvent(events[i], category, stream, position + i, number + i)
  {
    seq(|events|, i requires 0 <= i < |events| => StoredEvent(events[i], category, stream, position + i, number + i))
  }

  /** How many events the first `n` parts hold. */
  function Count(parts: seq<Part>, n: nat): nat
    requires n <= |parts|
  {
    if n == 0 then 0 else Count(parts, n - 1) + |parts[n - 1].events|
  }

  /** What publishing the first `n` parts stores on top of `log`. */
  function StoredParts(
      log: seq<StoredEvent>, category: string, parts: seq<Part>, number: nat, n: nat): seq<seq<StoredEvent>>
    requires n <= |parts|
  {
    if n == 0 then []
    else
      StoredParts(log, category, parts, number, n - 1) +
      [Stored(category, parts[n - 1].stream, parts[n - 1].events,
              |EventsOf(Stream(category, parts[n - 1].stream), log)|, number + Count(parts, n - 1))]
  }

  /** What has been stored, the next number and the transaction's events once the first `n` parts are published. */
  function Published(log: seq<StoredEvent>, category: string, parts: seq<Part>, number: nat, n: nat):
      (seq<seq<StoredEvent>>, nat, seq<StoredEvent>)
    requires n <= |parts|
  {
    var stored := StoredParts(log, category, parts, number, n);
    (stored, number + Count(parts, n), Flatten(stored))
  }

  ghost predicate Meets(log: seq<StoredEvent>, category: string, part: Part) {
    Holds(part.condition, Saves.Tail(LatestOf(Stream(category, part.stream), log)))
  }

  /** Where a stream of these events ends, by their number. */
  function LastPositionOf(events: seq<StoredEvent>): Option<int> {
    if events == [] then None else Some(|events| - 1)
  }

  /** An error some failing part of the condition raises. */
  ghost predicate Refused(log: seq<StoredEvent>, category: string, part: Part, error: UnmetWriteCondition) {
    Raises(part.condition, Saves.Tail(LatestOf(Stream(category, part.stream), log)), error)
  }

  /** The log meets the conditions of the first `n` parts. */
  ghost predicate AllMeet(log: seq<StoredEvent>, category: string, parts: seq<Part>, n: nat)
    requires n <= |parts|
  {
    forall k :: 0 <= k < n ==> Meets(log, category, parts[k])
  }

  lemma MeetNext(log: seq<StoredEvent>, category: string, parts: seq<Part>, n: nat)
    requires n < |parts|
    ensures AllMeet(log, category, parts, n + 1) <==> AllMeet(log, category, parts, n) && Meets(log, category, parts[n])
    ensures AllMeet(log, category, parts, |parts|) ==> Meets(log, category, parts[n])
  {
  }

  lemma NumbersOfStored(
    category: string, stream: string, events: seq<NewEvent>, position: int, number: nat, before: seq<StoredEvent>)
    requires DistinctNumbers(before) && AllBelow(before, number)
    ensures DistinctNumbers(before + Stored(category, stream, events, position, number))
    ensures AllBelow(before + Stored(category, stream, events, position, number), number + |events|)
  {
  }

  /** Appending what a stream is due keeps all positions contiguous. */
  lemma PositionsOfStored(
    log: seq<StoredEvent>, before: seq<StoredEvent>, category: string, stream: string, events: seq<NewEvent>,
    number: nat)
    requires AllContiguous(before)
    requires |EventsOf(Stream(category, stream), before)| == |EventsOf(Stream(category, stream), log)|
    ensures AllContiguous(
      before + Stored(category, stream, events, |EventsOf(Stream(category, stream), log)|, number))
  {
    var added := Stored(category, stream, events, |EventsOf(Stream(category, stream), log)|, number);
    forall c, s ensures Contiguous(EventsOf(Stream(c, s), before + added)) {
      EventsOfConcat(Stream(c, s), before, added);
      assert Contiguous(EventsOf(Stream(c, s), before));
      if c == category && s == stream {
        EventsOfAll(Stream(c, s), added);
      } else {
        EventsOfNone(Stream(c, s), added);
      }
    }
  }

  lemma StoredElsewhere(
    before: seq<StoredEvent>, category: string, stream: string, events: seq<NewEvent>, position: int, number: nat,
    other: string)
    requires other != stream
    ensures EventsOf(Stream(category, other), before + Stored(category, stream, events, position, number))
         == EventsOf(Stream(category, other), before)
  {
    var added := Stored(category, stream, events, position, number);
    EventsOfConcat(Stream(category, other), before, added);
    EventsOfNone(Stream(category, other), added);
  }

  class InMemoryEventStorageAdapter {
    const db: InMemoryEventsDB
    const sequence: InMemorySequence

    ghost predicate Valid()
      reads this, db, sequence
    {
      db.Valid() && AllBelow(db.log, sequence.value) && AllContiguous(db.log)
    }

    constructor ()
      ensures Valid() && fresh(db) && fresh(sequence) && db.log == []
    {
      db := new InMemoryEventsDB();
      sequence := new InMemorySequence();
    }

    /** Draws a number for each event of a part and hands the stored events to the transaction. */
    method DrawEvents(
        category: string, part: Part, transaction: Transaction, last: int) returns (stored: seq<StoredEvent>)
      modifies sequence, transaction
      ensures stored == Stored(category, part.stream, part.events, last + 1, old(sequence.value))
      ensures sequence.value == old(sequence.value) + |part.events|
      ensures transaction.addedEvents == old(transaction.addedEvents) + stored
    {
      stored := [];
      for count := 0 to |part.events|
        invariant stored == Stored(category, part.stream, part.events, last + 1, old(sequence.value))[..count]
        invariant sequence.value == old(sequence.value) + count
        invariant transaction.addedEvents == old(transaction.addedEvents) + stored
      {
        var number := sequence.Next();
        var e := StoredEvent(part.events[count], category, part.stream, last + count + 1, number);
        transaction.Add(e);
        stored := stored + [e];
      }
    }

    method CheckCondition(category: string, part: Part) returns (r: Result<(), UnmetWriteCondition>)
      requires db.Valid()
      ensures r.Success? <==> Meets(db.log, category, part)
      ensures r.Failure? ==> Refused(db.log, category, part, r.error)
    {
      var latest := db.LastStreamEvent(category, part.stream);
      r := AssertSatisfied(part.condition, Saves.Tail(latest));
    }

    /** Reads the latest event, enforces the condition and draws; nothing reaches the database yet. */
    method PublishPart(category: string, part: Part, transaction: Transaction)
      returns (r: Result<seq<StoredEvent>, UnmetWriteCondition>)
      requires db.Valid() && AllContiguous(db.log)
      modifies sequence, transaction
      ensures r.Success? <==> Meets(db.log, category, part)
      ensures r.Failure? ==>
        && sequence.value == old(sequence.value) && transaction.addedEvents == old(transaction.addedEvents)
        && Refused(db.log, category, part, r.error)
      ensures r.Success? ==>
        && r.value == Stored(category, part.stream, part.events,
                             |EventsOf(Stream(category, part.stream), db.log)|, old(sequence.value))
        && sequence.value == old(sequence.value) + |part.events|
        && transaction.addedEvents == old(transaction.addedEvents) + r.value
    {
      TailOfContiguous(db.log, category, part.stream);
      var checked := CheckCondition(category, part);
      if checked.Failure? {
        return Failure(checked.error);
      }
      var last := db.LastStreamPosition(category, part.stream);
      var stored := DrawEvents(category, part, transaction, last);
      r := Success(stored);
    }

    method SaveToStream(category: string, part: Part) returns (r: Result<seq<StoredEvent>, UnmetWriteCondition>)
      requires Valid()
      modifies db, sequence
      ensures Valid()
      ensures r.Success? <==> Meets(old(db.log), category, part)
      ensures match part.condition
        case NoCondition => r.Success?
        case EmptyStream =>
          && (r.Success? <==> EventsOf(Stream(category, part.stream), old(db.log)) == [])
          && (r.Failure? ==> r.error == StreamIsNotEmpty)
        case PositionIs(position) =>
          && (r.Success? <==> position == LastPositionOf(EventsOf(Stream(category, part.stream), old(db.log))))
          && (r.Failure? ==> r.error == UnexpectedStreamPosition)
        case _ => true
      ensures r.Failure? ==> db.log == old(db.log) && sequence.value == old(sequence.value)
      ensures r.Success? ==>
        && r.value == Stored(category, part.stream, part.events,
                             |EventsOf(Stream(category, part.stream), old(db.log))|, old(sequence.value))
        && db.log == old(db.log) + r.value && sequence.value == old(sequence.value) + |part.events|
    {
      ghost var log, first := db.log, sequence.value;
      LengthAsked(log, category, part);
      var transaction := new Transaction(db);
      r := PublishPart(category, part, transaction);
      if r.Success? {
        ghost var position := |EventsOf(Stream(category, part.stream), log)|;
        NumbersOfStored(category, part.stream, part.events, position, first, log);
        PositionsOfStored(log, log, category, part.stream, part.events, first);
        assert transaction.addedEvents == r.value;
        transaction.Commit();
      }
    }

    /** Streams are visited in sorted order; numbers drawn before a condition fails are lost. */
    method SaveToCategory(
        category: string, streams: seq<Part>) returns (r: Result<seq<seq<StoredEvent>>, UnmetWriteCondition>)
      requires Valid() && CategorySave(category, streams).Valid()
      modifies db, sequence
      ensures Valid()
      ensures r.Success? <==> AllMeet(old(db.log), category, streams, |streams|)
      ensures r.Failure? ==> db.log == old(db.log) && sequence.value >= old(sequence.value)
      ensures r.Success? ==>
        && r.value == StoredParts(old(db.log), category, streams, old(sequence.value), |streams|)
        && db.log == old(db.log) + Flatten(r.value)
        && sequence.value == old(sequence.value) + Count(streams, |streams|)
    {
      var transaction := new Transaction(db);
      PartsFit(db.log, category, streams, sequence.value, |streams|);
      r := PublishParts(category, streams, transaction);
      if r.Success? {
        transaction.Commit();
      }
    }

    method PublishParts(category: string, streams: seq<Part>, transaction: Transaction)
      returns (r: Result<seq<seq<StoredEvent>>, UnmetWriteCondition>)
      requires db.Valid() && AllContiguous(db.log) && transaction.addedEvents == []
      modifies sequence, transaction
      ensures r.Success? <==> AllMeet(db.log, category, streams, |streams|)
      ensures sequence.value >= old(sequence.value)
      ensures r.Success? ==>
        && r.value == StoredParts(db.log, category, streams, old(sequence.value), |streams|)
        && sequence.value == old(sequence.value) + Count(streams, |streams|)
        && transaction.addedEvents == Flatten(r.value)
    {
      ghost var log, first := db.log, sequence.value;
      var results: seq<seq<StoredEvent>> := [];
      for i := 0 to |streams|
        invariant AllMeet(log, category, streams, i)
        invariant (results, sequence.value, transaction.addedEvents) == Published(log, category, streams, first, i)
      {
        MeetNext(log, category, streams, i);
        var published := PublishNext(category, streams, transaction, first, i, results);
        if published.Failure? {
          return Failure(published.error);
        }
        results := published.value;
      }
      r := Success(results);
    }

    /** Publishes the part of the next stream. */
    method PublishNext(
        category: string, streams: seq<Part>, transaction: Transaction, ghost first: nat, i: nat,
        results: seq<seq<StoredEvent>>)
      returns (r: Result<seq<seq<StoredEvent>>, UnmetWriteCondition>)
      requires db.Valid() && AllContiguous(db.log) && i < |streams|
      requires (results, sequence.value, transaction.addedEvents) == Published(db.log, category, streams, first, i)
      modifies sequence, transaction
      ensures r.Success? <==> Meets(db.log, category, streams[i])
      ensures r.Failure? ==> sequence.value == old(sequence.value)
      ensures r.Success? ==>
        (r.value, sequence.value, transaction.addedEvents) == Published(db.log, category, streams, first, i + 1)
    {
      var stored := PublishPart(category, streams[i], transaction);
      if stored.Failure? {
        return Failure(stored.error);
      }
      FlattenNext(results, stored.value);
      r := Success(results + [stored.value]);
    }
  }

  lemma FlattenNext<T>(ss: seq<seq<T>>, s: seq<T>)
    ensures Flatten(ss + [s]) == Flatten(ss) + s
  {
    FlattenConcat(ss, [s]);
    assert Flatten([s]) == s + [];
  }

  /** The log can take what publishing the first `i` streams stores. */
  ghost predicate Fits(log: seq<StoredEvent>, category: string, streams: seq<Part>, first: nat, i: nat)
    requires i <= |streams|
  {
    var added := Flatten(StoredParts(log, category, streams, first, i));
    && DistinctNumbers(log + added) && AllBelow(log + added, first + Count(streams, i))
    && AllContiguous(log + added) && Untouched(log, category, streams, i, added)
  }

  lemma {:induction false} PartsFit(log: seq<StoredEvent>, category: string, streams: seq<Part>, first: nat, i: nat)
    requires CategorySave(category, streams).Valid() && i <= |streams|
    requires DistinctNumbers(log) && AllBelow(log, first) && AllContiguous(log)
    ensures Fits(log, category, streams, first, i)
  {
    if i == 0 {
      assert log + [] == log;
    } else {
      PartsFit(log, category, streams, first, i - 1);
      var part := streams[i - 1];
      ExtendedParts(
        log, category, streams, i - 1, StoredParts(log, category, streams, first, i - 1),
        Stored(category, part.stream, part.events, |EventsOf(Stream(category, part.stream), log)|,
               first + Count(streams, i - 1)),
        first + Count(streams, i - 1));
    }
  }

  /** No stream from the `i`-th on has received anything. */
  ghost predicate Untouched(
      log: seq<StoredEvent>, category: string, streams: seq<Part>, i: nat, added: seq<StoredEvent>) {
    forall k :: i <= k < |streams| ==>
      EventsOf(Stream(category, streams[k].stream), log + added) == EventsOf(Stream(category, streams[k].stream), log)
  }

  lemma ExtendedParts(
    log: seq<StoredEvent>, category: string, streams: seq<Part>, i: nat, results: seq<seq<StoredEvent>>,
    stored: seq<StoredEvent>, number: nat)
    requires CategorySave(category, streams).Valid() && i < |streams|
    requires stored == Stored(category, streams[i].stream, streams[i].events,
                              |EventsOf(Stream(category, streams[i].stream), log)|, number)
    requires DistinctNumbers(log + Flatten(results)) && AllBelow(log + Flatten(results), number)
    requires AllContiguous(log + Flatten(results)) && Untouched(log, category, streams, i, Flatten(results))
    ensures DistinctNumbers(log + Flatten(results + [stored]))
    ensures AllBelow(log + Flatten(results + [stored]), number + |streams[i].events|)
    ensures AllContiguous(log + Flatten(results + [stored]))
    ensures Untouched(log, category, streams, i + 1, Flatten(results + [stored]))
  {
    var part, before := streams[i], log + Flatten(results);
    var position := |EventsOf(Stream(category, part.stream), log)|;
    FlattenNext(results, stored);
    assert log + (Flatten(results) + stored) == before + stored;
    NumbersOfStored(category, part.stream, part.events, position, number, before);
    assert EventsOf(Stream(category, streams[i].stream), before) == EventsOf(Stream(category, streams[i].stream), log);
    PositionsOfStored(log, before, category, part.stream, part.events, number);
    forall k | i + 1 <= k < |streams|
      ensures EventsOf(Stream(category, streams[k].stream), before + stored)
           == EventsOf(Stream(category, streams[k].stream), log)
    {
      StreamsDiffer(category, streams, i, k);
      StoredElsewhere(before, category, part.stream, part.events, position, number, streams[k].stream);
    }
  }

  lemma StreamsDiffer(category: string, streams: seq<Part>, i: nat, k: nat)
    requires CategorySave(category, streams).Valid() && i < k < |streams|
    ensures streams[i].stream != streams[k].stream
  {
    var parts := CategorySave(category, streams).Parts();
    assert Values.StringBelow(parts[i].stream, parts[k].stream);
    Values.StringBelowTotal(parts[i].stream, parts[i].stream);
  }
}
