/**
 What saves write: positions along every stream run 0, 1, 2 and so on, a save commits only
 while its conditions hold, and it commits all of its streams' events or none.
 */
module SaveContents {
  import opened Prelude
  import Values
  import opened Events
  import opened EventsDb
  import opened Conditions
  import opened LockNames
  import opened Saves

  /** In `added`, the source received exactly `events`, at the positions following those in `log`. */
  ghost predicate Written(log: seq<StoredEvent>, source: EventSource, events: seq<NewEvent>, added: seq<StoredEvent>) {
    var mine := EventsOf(source, added);
    && |mine| == |events|
    && forall x :: 0 <= x < |mine| ==>
         mine[x].event == events[x] && mine[x].position == |EventsOf(source, log)| + x
  }

  /** The events of part `k` a save has drawn once it has drawn `drawn` events of part `part`. */
  function Drawn(p: Process, part: nat, drawn: nat, k: nat): seq<NewEvent>
    requires k < |p.save.Parts()| && (part < |p.save.Parts()| ==> drawn <= |p.save.Parts()[part].events|)
  {
    var events := p.save.Parts()[k].events;
    if k < part then events else if k == part then events[..drawn] else []
  }

  /** Everything added so far belongs to the parts, in the amounts drawn. */
  ghost predicate Progress(log: seq<StoredEvent>, p: Process, part: nat, drawn: nat)
    requires part < |p.save.Parts()| ==> drawn <= |p.save.Parts()[part].events|
  {
    && (forall k :: 0 <= k < |p.save.Parts()| ==> Written(log, p.Source(k), Drawn(p, part, drawn, k), p.added))
    && (forall e :: e in p.added ==> Belongs(p, e))
  }

  ghost predicate Belongs(p: Process, e: StoredEvent) {
    exists k :: 0 <= k < |p.save.Parts()| && p.Source(k).Holds(e)
  }

  /** The conditions of the first `n` parts hold of the log. */
  ghost predicate Checked(log: seq<StoredEvent>, p: Process, n: nat)
    requires n <= |p.save.Parts()|
  {
    forall k :: 0 <= k < n ==> Holds(p.save.Parts()[k].condition, Tail(LatestOf(p.Source(k), log)))
  }

  /** What a process knows about the log while its locks keep others out of its streams. */
  ghost predicate Content(g: Guarantee, log: seq<StoredEvent>, p: Process) {
    && p.save.Valid() && InRange(g, p)
    && match p.stage
       case Acquiring(_) => p.added == []
       case Opening(next) => Progress(log, p, next, 0) && Checked(log, p, next)
       case Reading(part, latest) =>
         Progress(log, p, part, 0) && Checked(log, p, part) && latest == LatestOf(p.Source(part), log)
       case Drawing(part, drawn, last) =>
         Progress(log, p, part, drawn) && Checked(log, p, part + 1) && last == |EventsOf(p.Source(part), log)| - 1
       case Committed(at) => at + |p.added| <= |log| && log[at..at + |p.added|] == p.added && Met(log[..at], p)
       case Rejected => p.added == []
  }

  /** What is true of a save at the moment it commits on top of `before`. */
  ghost predicate Met(before: seq<StoredEvent>, p: Process) {
    Progress(before, p, |p.save.Parts()|, 0) && Checked(before, p, |p.save.Parts()|)
  }

  ghost predicate AllContiguous(log: seq<StoredEvent>) {
    forall category, stream :: Contiguous(EventsOf(Stream(category, stream), log))
  }

  lemma DistinctSources(p: Process, i: nat, k: nat, e: StoredEvent)
    requires p.save.Valid() && i < |p.save.Parts()| && k < |p.save.Parts()|
    requires p.Source(i).Holds(e) && p.Source(k).Holds(e)
    ensures i == k
  {
    Values.StringBelowTotal(p.save.Parts()[i].stream, p.save.Parts()[i].stream);
  }

  lemma TailOfContiguous(log: seq<StoredEvent>, category: string, stream: string)
    requires AllContiguous(log)
    ensures PositionOf(LatestOf(Stream(category, stream), log), -1) == |EventsOf(Stream(category, stream), log)| - 1
    ensures Tail(LatestOf(Stream(category, stream), log))
         == var n := |EventsOf(Stream(category, stream), log)|; if n == 0 then None else Some(n - 1)
  {
  }

  /** How many events a plain condition asks the stream to hold; no stream ends at a negative position. */
  function AskedLength(condition: WriteCondition): Option<int> {
    match condition
    case EmptyStream => Some(0)
    case PositionIs(None) => Some(0)
    case PositionIs(Some(n)) => Some(if n < 0 then -1 else n + 1)
    case _ => None
  }

  lemma LengthAsked(log: seq<StoredEvent>, category: string, part: Part)
    requires AllContiguous(log)
    ensures var asked := AskedLength(part.condition);
      asked.Some? ==>
        (Holds(part.condition, Tail(LatestOf(Stream(category, part.stream), log)))
         <==> |EventsOf(Stream(category, part.stream), log)| == asked.value)
    ensures part.condition == NoCondition ==>
      Holds(part.condition, Tail(LatestOf(Stream(category, part.stream), log)))
  {
    TailOfContiguous(log, category, part.stream);
  }

  lemma DrawKeepsProgress(
    log: seq<StoredEvent>, p: Process, part: nat, drawn: nat, e: StoredEvent, p': Process)
    requires p.save.Valid() && part < |p.save.Parts()| && drawn < |p.save.Parts()[part].events|
    requires Progress(log, p, part, drawn)
    requires e == Store(p, part, drawn, |EventsOf(p.Source(part), log)| - 1, e.sequenceNumber)
    requires p'.save == p.save && p'.added == p.added + [e]
    ensures Progress(log, p', part, drawn + 1)
  {
    assert p.Source(part).Holds(e);
    forall k | 0 <= k < |p'.save.Parts()|
      ensures Written(log, p'.Source(k), Drawn(p', part, drawn + 1, k), p'.added)
    {
      assert Written(log, p.Source(k), Drawn(p, part, drawn, k), p.added);
      if k == part {
        var events := p.save.Parts()[k].events;
        WriteOne(log, p.Source(k), Drawn(p, part, drawn, k), p.added, e);
        assert events[..drawn + 1] == events[..drawn] + [events[drawn]];
      } else {
        if p.Source(k).Holds(e) {
          DistinctSources(p, part, k, e);
        }
        WriteElsewhere(log, p.Source(k), Drawn(p, part, drawn, k), p.added, e);
      }
    }
    forall x | x in p'.added ensures Belongs(p', x) {
      BelongsStill(p, part, e, p', x);
    }
  }

  lemma BelongsStill(p: Process, part: nat, e: StoredEvent, p': Process, x: StoredEvent)
    requires p'.save == p.save && part < |p.save.Parts()| && p.Source(part).Holds(e)
    requires x == e || Belongs(p, x)
    ensures Belongs(p', x)
  {
    if x == e {
      assert p'.Source(part).Holds(x);
    } else {
      var k :| 0 <= k < |p.save.Parts()| && p.Source(k).Holds(x);
      assert p'.Source(k).Holds(x);
    }
  }

  lemma WriteOne(
    log: seq<StoredEvent>, source: EventSource, events: seq<NewEvent>, added: seq<StoredEvent>, e: StoredEvent)
    requires Written(log, source, events, added) && source.Holds(e)
    requires e.position == |EventsOf(source, log)| + |events|
    ensures Written(log, source, events + [e.event], added + [e])
  {
    EventsOfConcat(source, added, [e]);
    EventsOfAll(source, [e]);
  }

  lemma WriteElsewhere(
    log: seq<StoredEvent>, source: EventSource, events: seq<NewEvent>, added: seq<StoredEvent>, e: StoredEvent)
    requires Written(log, source, events, added) && !source.Holds(e)
    ensures Written(log, source, events, added + [e])
  {
    EventsOfConcat(source, added, [e]);
    EventsOfNone(source, [e]);
  }

  lemma ProgressCarries(
      log: seq<StoredEvent>, p: Process, part: nat, drawn: nat, p': Process, part': nat)
    requires p'.save == p.save && p'.added == p.added
    requires part < |p.save.Parts()| ==> drawn <= |p.save.Parts()[part].events|
    requires Progress(log, p, part, drawn)
    requires || (part' == part && drawn == 0)
             || (part' == part + 1 && part < |p.save.Parts()| && drawn == |p.save.Parts()[part].events|)
    ensures Progress(log, p', part', 0)
  {
    forall k | 0 <= k < |p'.save.Parts()| ensures Written(log, p'.Source(k), Drawn(p', part', 0, k), p'.added) {
      assert Written(log, p.Source(k), Drawn(p, part, drawn, k), p.added);
      assert Drawn(p', part', 0, k) == Drawn(p, part, drawn, k);
    }
    forall e | e in p'.added ensures Belongs(p', e) {
      assert Belongs(p, e);
      var k :| 0 <= k < |p.save.Parts()| && p.Source(k).Holds(e);
      assert p'.Source(k).Holds(e);
    }
  }

  // One step of the process itself.

  lemma OwnStepContent(g: Guarantee, s: State, p: nat)
    requires Enabled(g, s, p) && AllContiguous(s.log) && Content(g, s.log, s.processes[p])
    ensures Content(g, Step(g, s, p).log, Step(g, s, p).processes[p])
  {
    match s.processes[p].stage
    case Acquiring(_) => AcquireContent(g, s, p);
    case Opening(_) => OpenContent(g, s, p);
    case Reading(_, _) => CheckContent(g, s, p);
    case Drawing(_, _, _) => DrawContent(g, s, p);
    case _ =>
  }

  lemma AcquireContent(g: Guarantee, s: State, p: nat)
    requires Enabled(g, s, p) && AllContiguous(s.log) && Content(g, s.log, s.processes[p])
    requires s.processes[p].stage.Acquiring?
    ensures Content(g, Step(g, s, p).log, Step(g, s, p).processes[p])
  {
  }

  lemma OpenContent(g: Guarantee, s: State, p: nat)
    requires Enabled(g, s, p) && AllContiguous(s.log) && Content(g, s.log, s.processes[p])
    requires s.processes[p].stage.Opening?
    ensures Content(g, Step(g, s, p).log, Step(g, s, p).processes[p])
  {
    var process, process' := s.processes[p], Step(g, s, p).processes[p];
    var next := process.stage.next;
    if next == |process.save.Parts()| {
      assert process' == process.(stage := Committed(|s.log|));
      CommittedContent(g, s.log, process, process');
    } else {
      ProgressCarries(s.log, process, next, 0, process', next);
      CheckedStill(s.log, process, process', next);
    }
  }

  lemma CommittedContent(g: Guarantee, log: seq<StoredEvent>, p: Process, p': Process)
    requires Content(g, log, p) && p.stage == Opening(|p.save.Parts()|)
    requires p' == p.(stage := Committed(|log|))
    ensures Content(g, log + p.added, p')
  {
    ProgressCarries(log, p, |p.save.Parts()|, 0, p', |p.save.Parts()|);
    CheckedStill(log, p, p', |p.save.Parts()|);
    SlicesOfAppended(log, p.added);
  }

  lemma SlicesOfAppended(log: seq<StoredEvent>, added: seq<StoredEvent>)
    ensures (log + added)[..|log|] == log && (log + added)[|log|..|log| + |added|] == added
  {
  }

  lemma CheckContent(g: Guarantee, s: State, p: nat)
    requires Enabled(g, s, p) && AllContiguous(s.log) && Content(g, s.log, s.processes[p])
    requires s.processes[p].stage.Reading?
    ensures Content(g, Step(g, s, p).log, Step(g, s, p).processes[p])
  {
    var process, process' := s.processes[p], Step(g, s, p).processes[p];
    var part := process.stage.part;
    if process'.stage.Drawing? {
      ProgressCarries(s.log, process, part, 0, process', part);
      TailOfContiguous(s.log, process.save.category, process.save.Parts()[part].stream);
      CheckedNext(s.log, process, process', part);
    }
  }

  lemma CheckedNext(log: seq<StoredEvent>, p: Process, p': Process, n: nat)
    requires n < |p.save.Parts()| && p'.save == p.save
    requires Checked(log, p, n) && Holds(p.save.Parts()[n].condition, Tail(LatestOf(p.Source(n), log)))
    ensures Checked(log, p', n + 1)
  {
  }

  lemma DrawContent(g: Guarantee, s: State, p: nat)
    requires Enabled(g, s, p) && Content(g, s.log, s.processes[p])
    requires s.processes[p].stage.Drawing?
    ensures Content(g, Step(g, s, p).log, Step(g, s, p).processes[p])
  {
    var process, process' := s.processes[p], Step(g, s, p).processes[p];
    var Drawing(part, drawn, last) := process.stage;
    if drawn < |process.save.Parts()[part].events| {
      var e := Store(process, part, drawn, last, s.sequence);
      assert process' == Process(process.save, Drawing(part, drawn + 1, last), process.added + [e]);
      DrawnContent(g, s.log, process, e, process');
    } else {
      assert process' == process.(stage := Opening(part + 1));
      PartDoneContent(g, s.log, process, process');
    }
  }

  lemma DrawnContent(
    g: Guarantee, log: seq<StoredEvent>, p: Process, e: StoredEvent, p': Process)
    requires Content(g, log, p) && p.stage.Drawing? && p.stage.drawn < |p.save.Parts()[p.stage.part].events|
    requires e == Store(p, p.stage.part, p.stage.drawn, p.stage.last, e.sequenceNumber)
    requires p' == Process(p.save, Drawing(p.stage.part, p.stage.drawn + 1, p.stage.last), p.added + [e])
    ensures Content(g, log, p')
  {
    DrawKeepsProgress(log, p, p.stage.part, p.stage.drawn, e, p');
    CheckedStill(log, p, p', p.stage.part + 1);
  }

  lemma PartDoneContent(g: Guarantee, log: seq<StoredEvent>, p: Process, p': Process)
    requires Content(g, log, p) && p.stage.Drawing? && p.stage.drawn == |p.save.Parts()[p.stage.part].events|
    requires p' == p.(stage := Opening(p.stage.part + 1))
    ensures Content(g, log, p')
  {
    ProgressCarries(log, p, p.stage.part, p.stage.drawn, p', p.stage.part + 1);
    CheckedStill(log, p, p', p.stage.part + 1);
  }

  lemma CheckedStill(log: seq<StoredEvent>, p: Process, p': Process, n: nat)
    requires n <= |p.save.Parts()| && p'.save == p.save && Checked(log, p, n)
    ensures Checked(log, p', n)
  {
  }

  // A step of another process.

  /** Nothing of `added` goes to a stream of `p`. */
  ghost predicate Avoids(p: Process, added: seq<StoredEvent>) {
    forall k :: 0 <= k < |p.save.Parts()| ==> EventsOf(p.Source(k), added) == []
  }

  lemma ContentUndisturbed(g: Guarantee, log: seq<StoredEvent>, added: seq<StoredEvent>, p: Process)
    requires Content(g, log, p) && (p.Active() ==> Avoids(p, added))
    ensures Content(g, log + added, p)
  {
    match p.stage
    case Opening(next) => ProgressUndisturbed(log, added, p, next, 0, next);
    case Reading(part, _) =>
      ProgressUndisturbed(log, added, p, part, 0, part);
      LatestUndisturbed(log, added, p, part);
    case Drawing(part, drawn, _) =>
      ProgressUndisturbed(log, added, p, part, drawn, part + 1);
      LatestUndisturbed(log, added, p, part);
    case Committed(at) =>
      assert (log + added)[..at] == log[..at];
      assert (log + added)[at..at + |p.added|] == log[at..at + |p.added|];
    case _ =>
  }

  lemma LatestUndisturbed(log: seq<StoredEvent>, added: seq<StoredEvent>, p: Process, k: nat)
    requires Avoids(p, added) && k < |p.save.Parts()|
    ensures EventsOf(p.Source(k), log + added) == EventsOf(p.Source(k), log)
  {
    EventsOfConcat(p.Source(k), log, added);
  }

  lemma ProgressUndisturbed(
    log: seq<StoredEvent>, added: seq<StoredEvent>, p: Process, part: nat, drawn: nat, n: nat)
    requires Avoids(p, added) && n <= |p.save.Parts()|
    requires part < |p.save.Parts()| ==> drawn <= |p.save.Parts()[part].events|
    requires Progress(log, p, part, drawn) && Checked(log, p, n)
    ensures Progress(log + added, p, part, drawn) && Checked(log + added, p, n)
  {
    forall k | 0 <= k < |p.save.Parts()|
      ensures Written(log + added, p.Source(k), Drawn(p, part, drawn, k), p.added)
    {
      assert Written(log, p.Source(k), Drawn(p, part, drawn, k), p.added);
      LatestUndisturbed(log, added, p, k);
    }
    forall k | 0 <= k < n
      ensures Holds(p.save.Parts()[k].condition, Tail(LatestOf(p.Source(k), log + added)))
    {
      assert Holds(p.save.Parts()[k].condition, Tail(LatestOf(p.Source(k), log)));
      LatestUndisturbed(log, added, p, k);
    }
  }

  lemma LocksKeepOut(g: Guarantee, s: State, p: nat, q: nat)
    requires LocksConsistent(g, s) && p < |s.processes| && q < |s.processes| && p != q
    requires s.processes[p].Active() && s.processes[q].Active()
    requires forall e :: e in s.processes[p].added ==> Belongs(s.processes[p], e)
    ensures Avoids(s.processes[q], s.processes[p].added)
  {
    var mine, theirs := s.processes[p], s.processes[q];
    forall k | 0 <= k < |theirs.save.Parts()| ensures EventsOf(theirs.Source(k), mine.added) == [] {
      forall e | e in mine.added ensures !theirs.Source(k).Holds(e) {
        if theirs.Source(k).Holds(e) {
          assert Belongs(mine, e);
          var j :| 0 <= j < |mine.save.Parts()| && mine.Source(j).Holds(e);
          RequiredLocksProtect(g, mine.save, j);
          RequiredLocksProtect(g, theirs.save, k);
          MutualExclusion(g, s, p, q, LockOf(g, e.category, e.stream));
        }
      }
      EventsOfNone(theirs.Source(k), mine.added);
    }
  }

  // Positions.

  lemma CommitKeepsContiguous(log: seq<StoredEvent>, p: Process)
    requires p.save.Valid() && AllContiguous(log) && Progress(log, p, |p.save.Parts()|, 0)
    ensures AllContiguous(log + p.added)
  {
    forall category, stream ensures Contiguous(EventsOf(Stream(category, stream), log + p.added)) {
      var source := Stream(category, stream);
      EventsOfConcat(source, log, p.added);
      assert Contiguous(EventsOf(source, log));
      if category == p.save.category && exists k :: 0 <= k < |p.save.Parts()| && p.save.Parts()[k].stream == stream {
        var k :| 0 <= k < |p.save.Parts()| && p.save.Parts()[k].stream == stream;
        assert Written(log, p.Source(k), Drawn(p, |p.save.Parts()|, 0, k), p.added);
      } else {
        forall e | e in p.added ensures !source.Holds(e) {
          assert Belongs(p, e);
        }
        EventsOfNone(source, p.added);
      }
    }
  }

  // The invariant.

  ghost predicate Sound(g: Guarantee, s: State) {
    && LocksConsistent(g, s) && AllContiguous(s.log)
    && forall p :: 0 <= p < |s.processes| ==> Content(g, s.log, s.processes[p])
  }

  /** What one step does to the log: nothing, or it appends everything a save has drawn. */
  lemma StepLog(g: Guarantee, s: State, p: nat)
    requires Enabled(g, s, p)
    ensures var process := s.processes[p];
      if process.stage == Opening(|process.save.Parts()|) then Step(g, s, p).log == s.log + process.added
      else Step(g, s, p).log == s.log
  {
  }

  lemma StepKeepsSound(g: Guarantee, s: State, p: nat)
    requires Sound(g, s) && Enabled(g, s, p)
    ensures Sound(g, Step(g, s, p))
  {
    var s', process := Step(g, s, p), s.processes[p];
    StepKeepsLocks(g, s, p);
    StepOnlyMoves(g, s, p);
    StepLog(g, s, p);
    OwnStepContent(g, s, p);
    if process.stage == Opening(|process.save.Parts()|) {
      CommitKeepsContiguous(s.log, process);
      OthersAfterCommit(g, s, p);
    }
  }

  lemma OthersAfterCommit(g: Guarantee, s: State, p: nat)
    requires Sound(g, s) && p < |s.processes|
    requires s.processes[p].stage == Opening(|s.processes[p].save.Parts()|)
    ensures forall q :: 0 <= q < |s.processes| && q != p ==> Content(g, s.log + s.processes[p].added, s.processes[q])
  {
    var process := s.processes[p];
    forall q | 0 <= q < |s.processes| && q != p ensures Content(g, s.log + process.added, s.processes[q]) {
      assert Content(g, s.log, process) && Content(g, s.log, s.processes[q]);
      if s.processes[q].Active() {
        LocksKeepOut(g, s, p, q);
      }
      ContentUndisturbed(g, s.log, process.added, s.processes[q]);
    }
  }

  lemma StartSound(g: Guarantee, saves: seq<Save>)
    requires forall i :: 0 <= i < |saves| ==> saves[i].Valid()
    ensures Sound(g, Start(saves))
  {
  }

  /** Every state any interleaving reaches is sound. */
  lemma {:induction false} RunKeepsSound(g: Guarantee, s: State, schedule: seq<nat>)
    requires Sound(g, s)
    ensures Sound(g, Run(g, s, schedule))
    decreases |schedule|
  {
    if schedule != [] {
      var p := schedule[0];
      if Enabled(g, s, p) {
        StepKeepsSound(g, s, p);
        RunKeepsSound(g, Step(g, s, p), schedule[1..]);
      } else {
        RunKeepsSound(g, s, schedule[1..]);
      }
    }
  }
}
