/**
 Which orders a serialisation guarantee keeps: an index increases in sequence number in every
 run if and only if one lock protects all of its events. Where it does not, two saves suffice
 to commit in the other order than they drew.
 */
module SaveScopes {
  import opened Prelude
  import opened Events
  import opened EventsDb
  import opened Conditions
  import opened LockNames
  import opened Saves
  import opened SaveLaws

  lemma {:induction false} RunConcat(g: Guarantee, s: State, a: seq<nat>, b: seq<nat>)
    ensures Run(g, s, a + b) == Run(g, Run(g, s, a), b)
    decreases |a|
  {
    if a == [] {
      assert a + b == b;
    } else {
      assert (a + b)[1..] == a[1..] + b;
      RunConcat(g, if Enabled(g, s, a[0]) then Step(g, s, a[0]) else s, a[1..], b);
    }
  }

  lemma RunOne(g: Guarantee, s: State, p: nat)
    requires Enabled(g, s, p)
    ensures Run(g, s, [p]) == Step(g, s, p)
  {
  }

  function Publishing(category: string, stream: string, event: NewEvent): Save {
    StreamSave(category, Part(stream, [event], NoCondition))
  }

  /** A save of one event that waits at its first lock. */
  ghost predicate Fresh(s: State, p: nat, category: string, stream: string, event: NewEvent) {
    p < |s.processes| && s.processes[p] == Process(Publishing(category, stream, event), Acquiring(0), [])
  }

  /** The event such a save stores when it draws now. */
  function Now(s: State, category: string, stream: string, event: NewEvent): StoredEvent {
    StoredEvent(event, category, stream, PositionOf(LatestOf(Stream(category, stream), s.log), -1) + 1, s.sequence)
  }

  /** With its event drawn, and its lock held. */
  function Drew(g: Guarantee, s: State, p: nat, category: string, stream: string, event: NewEvent): State
    requires p < |s.processes|
  {
    var last := PositionOf(LatestOf(Stream(category, stream), s.log), -1);
    State(
      s.locks[LockOf(g, category, stream) := p], s.sequence + 1, s.log,
      s.processes[p := Process(Publishing(category, stream, event), Drawing(0, 1, last),
                               [Now(s, category, stream, event)])])
  }

  lemma Locking(g: Guarantee, s: State, p: nat, category: string, stream: string, event: NewEvent)
    requires Fresh(s, p, category, stream, event) && LockOf(g, category, stream) !in s.locks
    ensures Run(g, s, [p, p]) ==
      s.(locks := s.locks[LockOf(g, category, stream) := p],
         processes := s.processes[p := s.processes[p].(stage := Opening(0))])
  {
    var s1 := Step(g, s, p);
    assert s1 == s.(locks := s.locks[LockOf(g, category, stream) := p],
                    processes := s.processes[p := s.processes[p].(stage := Acquiring(1))]);
    RunConcat(g, s, [p], [p]);
    RunOne(g, s, p);
    RunOne(g, s1, p);
    assert [p, p] == [p] + [p];
  }

  lemma Drawn(g: Guarantee, s: State, p: nat, category: string, stream: string, event: NewEvent)
    requires p < |s.processes| && s.processes[p] == Process(Publishing(category, stream, event), Opening(0), [])
    ensures Run(g, s, [p, p, p]) ==
      s.(sequence := s.sequence + 1,
         processes := s.processes[p := Process(
           Publishing(category, stream, event),
           Drawing(0, 1, PositionOf(LatestOf(Stream(category, stream), s.log), -1)),
           [Now(s, category, stream, event)])])
  {
    var save, source := Publishing(category, stream, event), Stream(category, stream);
    var latest := LatestOf(source, s.log);
    var s1, last := Step(g, s, p), PositionOf(latest, -1);
    assert s1.processes[p] == Process(save, Reading(0, latest), []);
    var s2 := Step(g, s1, p);
    assert s2.processes[p] == Process(save, Drawing(0, 0, last), []);
    var s3 := Step(g, s2, p);
    assert [] + [Now(s, category, stream, event)] == [Now(s, category, stream, event)];
    assert s3.processes[p] == Process(save, Drawing(0, 1, last), [Now(s, category, stream, event)]);
    assert s3.processes == s.processes[p := s3.processes[p]];
    RunOne(g, s, p);
    RunOne(g, s1, p);
    RunOne(g, s2, p);
    RunConcat(g, s, [p], [p]);
    RunConcat(g, s, [p] + [p], [p]);
    assert [p, p, p] == [p] + [p] + [p];
  }

  lemma Draws(g: Guarantee, s: State, p: nat, category: string, stream: string, event: NewEvent)
    requires Fresh(s, p, category, stream, event) && LockOf(g, category, stream) !in s.locks
    ensures Run(g, s, [p, p, p, p, p]) == Drew(g, s, p, category, stream, event)
  {
    Locking(g, s, p, category, stream, event);
    Drawn(g, Run(g, s, [p, p]), p, category, stream, event);
    RunConcat(g, s, [p, p], [p, p, p]);
    assert [p, p, p, p, p] == [p, p] + [p, p, p];
  }

  lemma Commits(
    g: Guarantee, s: State, p: nat, category: string, stream: string, event: NewEvent, last: int, stored: StoredEvent)
    requires p < |s.processes|
    requires s.processes[p] == Process(Publishing(category, stream, event), Drawing(0, 1, last), [stored])
    ensures var s' := Run(g, s, [p, p]);
      && s'.log == s.log + [stored] && s'.sequence == s.sequence
      && |s'.processes| == |s.processes|
      && forall q :: 0 <= q < |s.processes| && q != p ==> s'.processes[q] == s.processes[q]
  {
    var s1 := Step(g, s, p);
    assert s1.processes[p] == Process(Publishing(category, stream, event), Opening(1), [stored]);
    RunOne(g, s, p);
    RunOne(g, s1, p);
    RunConcat(g, s, [p], [p]);
    assert [p, p] == [p] + [p];
  }

  /** The first save draws, then the second draws and commits. */
  function Overtaking(): seq<nat> {
    [0, 0, 0, 0, 0] + [1, 1, 1, 1, 1] + [1, 1]
  }

  /** The second save's event stands in the log before the first one's, with the higher number. */
  ghost predicate Overtaken(
    c0: string, s0: string, c1: string, s1: string, before: seq<StoredEvent>, after: seq<StoredEvent>)
  {
    && |after| == 2 && after[0].category == c1 && after[0].stream == s1 && after[0].sequenceNumber == 1
    && after[1].category == c0 && after[1].stream == s0 && after[1].sequenceNumber == 0
    && before == [after[0]]
  }

  lemma OvertakenSave(
    g: Guarantee, c0: string, s0: string, c1: string, s1: string, event: NewEvent)
    requires LockOf(g, c0, s0) != LockOf(g, c1, s1)
    ensures var overtaken := Run(g, Start([Publishing(c0, s0, event), Publishing(c1, s1, event)]), Overtaking());
      Overtaken(c0, s0, c1, s1, overtaken.log, Run(g, overtaken, [0, 0]).log)
  {
    var start := Start([Publishing(c0, s0, event), Publishing(c1, s1, event)]);
    var a := Drew(g, start, 0, c0, s0, event);
    var b := Drew(g, a, 1, c1, s1, event);
    BothDraw(g, c0, s0, c1, s1, event);
    Commits(g, b, 1, c1, s1, event, PositionOf(LatestOf(Stream(c1, s1), a.log), -1), Now(a, c1, s1, event));
    RunConcat(g, start, [0, 0, 0, 0, 0] + [1, 1, 1, 1, 1], [1, 1]);
    var c := Run(g, b, [1, 1]);
    Commits(g, c, 0, c0, s0, event, PositionOf(LatestOf(Stream(c0, s0), start.log), -1), Now(start, c0, s0, event));
  }

  lemma BothDraw(
    g: Guarantee, c0: string, s0: string, c1: string, s1: string, event: NewEvent)
    requires LockOf(g, c0, s0) != LockOf(g, c1, s1)
    ensures var start := Start([Publishing(c0, s0, event), Publishing(c1, s1, event)]);
      Run(g, start, [0, 0, 0, 0, 0] + [1, 1, 1, 1, 1]) == Drew(g, Drew(g, start, 0, c0, s0, event), 1, c1, s1, event)
  {
    var start := Start([Publishing(c0, s0, event), Publishing(c1, s1, event)]);
    Draws(g, start, 0, c0, s0, event);
    Draws(g, Drew(g, start, 0, c0, s0, event), 1, c1, s1, event);
    RunConcat(g, start, [0, 0, 0, 0, 0], [1, 1, 1, 1, 1]);
  }

  ghost predicate AlwaysIncreasing(g: Guarantee, source: EventSource) {
    forall saves, schedule :: AllValid(saves) ==> Increasing(EventsOf(source, Run(g, Start(saves), schedule).log))
  }

  ghost predicate AlwaysResumes(g: Guarantee, source: EventSource) {
    forall saves, before, schedule :: AllValid(saves) ==> Resumes(g, source, saves, before, schedule)
  }

  lemma OvertakenIndex(
    g: Guarantee, source: EventSource, c0: string, s0: string, c1: string, s1: string)
    requires LockOf(g, c0, s0) != LockOf(g, c1, s1)
    requires forall e: StoredEvent ::
      (e.category == c0 && e.stream == s0) || (e.category == c1 && e.stream == s1) ==> source.Holds(e)
    ensures !AlwaysIncreasing(g, source) && !AlwaysResumes(g, source)
  {
    var event := NewEvent("", "");
    var saves := [Publishing(c0, s0, event), Publishing(c1, s1, event)];
    OvertakenSave(g, c0, s0, c1, s1, event);
    PublishingIsValid(c0, s0, c1, s1, event);
    BreaksBoth(g, source, saves, Overtaking(), [0, 0]);
  }

  lemma BreaksBoth(
    g: Guarantee, source: EventSource, saves: seq<Save>, before: seq<nat>, schedule: seq<nat>)
    requires AllValid(saves)
    requires var s := Run(g, Start(saves), before);
      var log := Run(g, s, schedule).log;
      && |log| == 2 && s.log == [log[0]] && source.Holds(log[0]) && source.Holds(log[1])
      && log[0].sequenceNumber > log[1].sequenceNumber
    ensures !AlwaysIncreasing(g, source) && !AlwaysResumes(g, source)
  {
    var s := Run(g, Start(saves), before);
    OvertakenReader(source, s.log, Run(g, s, schedule).log);
    RunConcat(g, Start(saves), before, schedule);
    assert !Resumes(g, source, saves, before, schedule);
    assert !Increasing(EventsOf(source, Run(g, Start(saves), before + schedule).log));
  }

  lemma PublishingIsValid(c0: string, s0: string, c1: string, s1: string, event: NewEvent)
    ensures AllValid([Publishing(c0, s0, event), Publishing(c1, s1, event)])
  {
  }

  /** The overtaken event is not among those after the number seen. */
  lemma OvertakenReader(source: EventSource, before: seq<StoredEvent>, log: seq<StoredEvent>)
    requires |log| == 2 && before == [log[0]] && source.Holds(log[0]) && source.Holds(log[1])
    requires log[0].sequenceNumber > log[1].sequenceNumber
    ensures !Increasing(EventsOf(source, log))
    ensures EventsOf(source, before) == before
    ensures Accepted({SequenceNumberAfter(log[0].sequenceNumber)}, EventsOf(source, log)) != EventsOf(source, log)[1..]
  {
    EventsOfAll(source, log);
    EventsOfAll(source, before);
    var constraint := SequenceNumberAfter(log[0].sequenceNumber);
    assert !AcceptedByAll({constraint}, log[1]);
    assert log[1] !in Accepted({constraint}, log);
    assert log[1] == log[1..][0];
  }

  /**
   The scope of an index decides: under one lock it always increases and a resuming reader
   misses nothing, otherwise some run breaks the order and some reader misses an event.
   */
  lemma IncreasesExactlyWithinOneLock(g: Guarantee, source: EventSource)
    ensures Serialises(g, source) <==> AlwaysIncreasing(g, source)
    ensures Serialises(g, source) <==> AlwaysResumes(g, source)
  {
    if Serialises(g, source) {
      forall saves, schedule | AllValid(saves)
        ensures Increasing(EventsOf(source, Run(g, Start(saves), schedule).log))
      {
        IndexesIncrease(g, saves, schedule, source);
      }
      forall saves, before, schedule | AllValid(saves) ensures Resumes(g, source, saves, before, schedule) {
        ResumingReaderMissesNothing(g, saves, before, schedule, source);
      }
    } else if g == StreamGuarantee {
      var category := if source.Category? then source.category else "";
      assert StreamLock(category, "a") != StreamLock(category, "b") by {
        var prefix := NAMESPACE + "." + category + ".";
        assert (prefix + "a")[|prefix|] == 'a' && (prefix + "b")[|prefix|] == 'b';
      }
      OvertakenIndex(g, source, category, "a", category, "b");
    } else {
      assert CategoryLock("a") != CategoryLock("b") by {
        var prefix := NAMESPACE + ".";
        assert (prefix + "a")[|prefix|] == 'a' && (prefix + "b")[|prefix|] == 'b';
      }
      OvertakenIndex(g, source, "a", "", "b", "");
    }
  }
}
