/** Events, the sources they can be read from, and the log they are appended to. */
module Events {
  import opened Prelude

  datatype NewEvent = NewEvent(name: string, payload: string)

  datatype StoredEvent = StoredEvent(
    event: NewEvent, category: string, stream: string, position: int, sequenceNumber: nat)

  datatype EventSource =
    | Log
    | Category(category: string)
    | Stream(category: string, stream: string)
  {
    predicate Holds(e: StoredEvent) {
      match this
      case Log => true
      case Category(c) => e.category == c
      case Stream(c, s) => e.category == c && e.stream == s
    }
  }

  datatype QueryConstraint = SequenceNumberAfter(sequenceNumber: int) {
    predicate Accepts(e: StoredEvent) {
      e.sequenceNumber > sequenceNumber
    }
  }

  predicate AcceptedByAll(constraints: set<QueryConstraint>, e: StoredEvent) {
    forall constraint :: constraint in constraints ==> constraint.Accepts(e)
  }

  /** What a scan yields: the events that pass every constraint. */
  function Accepted(constraints: set<QueryConstraint>, events: seq<StoredEvent>): seq<StoredEvent> {
    Filter((e: StoredEvent) => AcceptedByAll(constraints, e), events)
  }

  /** An event is yielded if and only if it is there and its number lies beyond every one given. */
  lemma AcceptedExactly(constraints: set<QueryConstraint>, events: seq<StoredEvent>, e: StoredEvent)
    ensures e in Accepted(constraints, events) <==>
      e in events && forall n :: SequenceNumberAfter(n) in constraints ==> n < e.sequenceNumber
  {
    if e in Accepted(constraints, events) {
      forall n | SequenceNumberAfter(n) in constraints ensures n < e.sequenceNumber {
        assert SequenceNumberAfter(n).Accepts(e);
      }
    }
    if forall n :: SequenceNumberAfter(n) in constraints ==> n < e.sequenceNumber {
      forall constraint | constraint in constraints ensures constraint.Accepts(e) {
        assert constraint == SequenceNumberAfter(constraint.sequenceNumber);
      }
    }
  }

  /** `scanned` holds the events of the source whose numbers lie beyond every one given, and no others. */
  ghost predicate ScannedExactly(
    source: EventSource, constraints: set<QueryConstraint>, log: seq<StoredEvent>, scanned: seq<StoredEvent>)
  {
    forall e :: e in scanned <==>
      e in log && source.Holds(e) && forall n :: SequenceNumberAfter(n) in constraints ==> n < e.sequenceNumber
  }

  lemma AcceptedAreScanned(source: EventSource, constraints: set<QueryConstraint>, log: seq<StoredEvent>)
    ensures ScannedExactly(source, constraints, log, Accepted(constraints, EventsOf(source, log)))
  {
    forall e ensures e in Accepted(constraints, EventsOf(source, log)) <==>
      e in log && source.Holds(e) && forall n :: SequenceNumberAfter(n) in constraints ==> n < e.sequenceNumber
    {
      AcceptedExactly(constraints, EventsOf(source, log), e);
    }
  }

  /** Without constraints nothing is left out. */
  lemma AcceptedUnconstrained(events: seq<StoredEvent>)
    ensures Accepted({}, events) == events
  {
    FilterAll((e: StoredEvent) => AcceptedByAll({}, e), events);
  }

  /** Constraints can be applied together or one set after the other. */
  lemma {:induction false} AcceptedTogether(
      a: set<QueryConstraint>, b: set<QueryConstraint>, events: seq<StoredEvent>)
    ensures Accepted(a + b, events) == Accepted(a, Accepted(b, events))
  {
    if events != [] {
      AcceptedTogether(a, b, events[1..]);
      AcceptedFirst(a + b, events);
      AcceptedFirst(b, events);
      var rest := Accepted(b, events[1..]);
      assert AcceptedByAll(a + b, events[0]) <==> AcceptedByAll(a, events[0]) && AcceptedByAll(b, events[0]);
      if AcceptedByAll(b, events[0]) {
        AcceptedFirst(a, [events[0]] + rest);
        assert ([events[0]] + rest)[1..] == rest;
      }
    }
  }

  lemma AcceptedFirst(constraints: set<QueryConstraint>, events: seq<StoredEvent>)
    requires events != []
    ensures Accepted(constraints, events)
         == (if AcceptedByAll(constraints, events[0]) then [events[0]] else []) + Accepted(constraints, events[1..])
  {
  }

  /** Events are yielded in the order they come in. */
  lemma AcceptedConcat(constraints: set<QueryConstraint>, a: seq<StoredEvent>, b: seq<StoredEvent>)
    ensures Accepted(constraints, a + b) == Accepted(constraints, a) + Accepted(constraints, b)
  {
    FilterConcat((e: StoredEvent) => AcceptedByAll(constraints, e), a, b);
  }

  lemma AcceptedNext(constraints: set<QueryConstraint>, events: seq<StoredEvent>, i: nat)
    requires i < |events|
    ensures Accepted(constraints, events[..i + 1])
         == Accepted(constraints, events[..i]) + if AcceptedByAll(constraints, events[i]) then [events[i]] else []
  {
    assert events[..i + 1] == events[..i] + [events[i]];
    FilterConcat((e: StoredEvent) => AcceptedByAll(constraints, e), events[..i], [events[i]]);
  }

  /** The events of a source, in the order they were committed. */
  function EventsOf(source: EventSource, log: seq<StoredEvent>): (r: seq<StoredEvent>)
    ensures |r| <= |log|
    ensures forall e :: e in r <==> e in log && source.Holds(e)
  {
    Filter((e: StoredEvent) => source.Holds(e), log)
  }

  function LatestOf(source: EventSource, log: seq<StoredEvent>): Option<StoredEvent> {
    var events := EventsOf(source, log);
    if events == [] then None else Some(events[|events| - 1])
  }

  function Numbers(events: seq<StoredEvent>): (r: seq<nat>)
    ensures |r| == |events|
    ensures forall i :: 0 <= i < |r| ==> r[i] == events[i].sequenceNumber
  {
    if events == [] then [] else [events[0].sequenceNumber] + Numbers(events[1..])
  }

  ghost predicate DistinctNumbers(events: seq<StoredEvent>) {
    forall i, j :: 0 <= i < j < |events| ==> events[i].sequenceNumber != events[j].sequenceNumber
  }

  ghost predicate Increasing(events: seq<StoredEvent>) {
    forall i, j :: 0 <= i < j < |events| ==> events[i].sequenceNumber < events[j].sequenceNumber
  }

  /** The events of a stream occupy positions 0, 1, 2 and so on. */
  ghost predicate Contiguous(events: seq<StoredEvent>) {
    forall i :: 0 <= i < |events| ==> events[i].position == i
  }

  lemma EventsOfConcat(source: EventSource, a: seq<StoredEvent>, b: seq<StoredEvent>)
    ensures EventsOf(source, a + b) == EventsOf(source, a) + EventsOf(source, b)
  {
    FilterConcat((e: StoredEvent) => source.Holds(e), a, b);
  }

  lemma NumbersConcat(a: seq<StoredEvent>, b: seq<StoredEvent>)
    ensures Numbers(a + b) == Numbers(a) + Numbers(b)
  {
  }

  lemma EventsOfNone(source: EventSource, log: seq<StoredEvent>)
    requires forall e :: e in log ==> !source.Holds(e)
    ensures EventsOf(source, log) == []
  {
    FilterNone((e: StoredEvent) => source.Holds(e), log);
  }

  lemma EventsOfAll(source: EventSource, log: seq<StoredEvent>)
    requires forall e :: e in log ==> source.Holds(e)
    ensures EventsOf(source, log) == log
  {
    FilterAll((e: StoredEvent) => source.Holds(e), log);
  }

  /** Scanning an ascending log after the number of its n-th event yields the rest of it. */
  lemma AcceptedAfter(log: seq<StoredEvent>, n: nat)
    requires Increasing(log) && 0 < n <= |log|
    ensures Accepted({SequenceNumberAfter(log[n - 1].sequenceNumber)}, log) == log[n..]
  {
    var constraints := {SequenceNumberAfter(log[n - 1].sequenceNumber)};
    var p := (e: StoredEvent) => AcceptedByAll(constraints, e);
    assert log == log[..n] + log[n..];
    FilterConcat(p, log[..n], log[n..]);
    forall i | 0 <= i < |log| ensures p(log[i]) <==> i >= n {
      assert SequenceNumberAfter(log[n - 1].sequenceNumber) in constraints;
      assert i < n - 1 ==> log[i].sequenceNumber < log[n - 1].sequenceNumber;
      assert i > n - 1 ==> log[n - 1].sequenceNumber < log[i].sequenceNumber;
    }
    FilterNone(p, log[..n]);
    FilterAll(p, log[n..]);
  }
}
