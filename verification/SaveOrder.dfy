/**
 Sequence numbers under interleaved saves: every number is used once, and the events
 protected by one lock are committed in the order of their numbers.
 */
module SaveOrder {
  import opened Prelude
  import opened Events
  import opened LockNames
  import opened Saves
  import opened SaveContents

  function EventLock(g: Guarantee, e: StoredEvent): string {
    LockOf(g, e.category, e.stream)
  }

  ghost predicate AllBelow(events: seq<StoredEvent>, bound: nat) {
    forall e :: e in events ==> e.sequenceNumber < bound
  }

  ghost predicate Apart(a: seq<StoredEvent>, b: seq<StoredEvent>) {
    forall e, f :: e in a && f in b ==> e.sequenceNumber != f.sequenceNumber
  }

  /** What the locks `names` protect of `a` has lower numbers than all of `b`. */
  ghost predicate Ahead(g: Guarantee, names: seq<string>, a: seq<StoredEvent>, b: seq<StoredEvent>) {
    forall e, f :: e in a && f in b && EventLock(g, e) in names ==> e.sequenceNumber < f.sequenceNumber
  }

  /** Events protected by the same lock are in the order of their numbers. */
  ghost predicate OrderedByLock(g: Guarantee, log: seq<StoredEvent>) {
    forall i, j :: 0 <= i < j < |log| && EventLock(g, log[i]) == EventLock(g, log[j]) ==>
      log[i].sequenceNumber < log[j].sequenceNumber
  }

  /** The numbers of one process, relative to the log and the next number. */
  ghost predicate NumberedProcess(g: Guarantee, log: seq<StoredEvent>, sequence: nat, p: Process) {
    && AllBelow(p.added, sequence) && Increasing(p.added)
    && (p.Active() ==> Apart(log, p.added) && Ahead(g, RequiredLocks(g, p.save), log, p.added))
  }

  ghost predicate NumberedPair(s: State, p: nat, q: nat)
    requires p < |s.processes| && q < |s.processes|
  {
    p != q ==> Apart(s.processes[p].added, s.processes[q].added)
  }

  ghost predicate Numbered(g: Guarantee, s: State) {
    && AllBelow(s.log, s.sequence) && DistinctNumbers(s.log) && OrderedByLock(g, s.log)
    && (forall p :: 0 <= p < |s.processes| ==> NumberedProcess(g, s.log, s.sequence, s.processes[p]))
    && (forall p, q :: 0 <= p < |s.processes| && 0 <= q < |s.processes| ==> NumberedPair(s, p, q))
  }

  /** What a step adds to the events its process has drawn. */
  lemma StepDraws(g: Guarantee, s: State, p: nat)
    requires Enabled(g, s, p)
    ensures var process, process', s' := s.processes[p], Step(g, s, p).processes[p], Step(g, s, p);
      || (s'.sequence == s.sequence && (process'.added == process.added || process'.added == []))
      || (s'.sequence == s.sequence + 1 && process.Active()
          && exists e: StoredEvent :: e.sequenceNumber == s.sequence && process'.added == process.added + [e])
    ensures Step(g, s, p).processes[p].Active() ==>
      s.processes[p].Active() || Step(g, s, p).processes[p].added == s.processes[p].added
  {
  }

  lemma DrawNumbered(g: Guarantee, log: seq<StoredEvent>, p: Process, e: StoredEvent, p': Process)
    requires NumberedProcess(g, log, e.sequenceNumber, p) && AllBelow(log, e.sequenceNumber)
    requires p.Active() && p'.save == p.save && p'.added == p.added + [e]
    ensures NumberedProcess(g, log, e.sequenceNumber + 1, p')
  {
  }

  lemma CommitOrdered(g: Guarantee, log: seq<StoredEvent>, sequence: nat, p: Process)
    requires AllBelow(log, sequence) && DistinctNumbers(log) && OrderedByLock(g, log)
    requires NumberedProcess(g, log, sequence, p) && p.Active()
    requires forall e :: e in p.added ==> Belongs(p, e)
    ensures AllBelow(log + p.added, sequence) && DistinctNumbers(log + p.added) && OrderedByLock(g, log + p.added)
  {
    var all := log + p.added;
    forall i, j | 0 <= i < j < |all|
      ensures all[i].sequenceNumber != all[j].sequenceNumber
      ensures EventLock(g, all[i]) == EventLock(g, all[j]) ==> all[i].sequenceNumber < all[j].sequenceNumber
    {
      if i < |log| <= j {
        assert all[i] in log && all[j] in p.added;
        AddedProtected(g, p, all[j]);
      } else if |log| <= i {
        assert all[i] == p.added[i - |log|] && all[j] == p.added[j - |log|];
      }
    }
  }

  lemma AddedProtected(g: Guarantee, p: Process, e: StoredEvent)
    requires Belongs(p, e)
    ensures EventLock(g, e) in RequiredLocks(g, p.save)
  {
  }

  lemma OtherAfterCommit(g: Guarantee, s: State, p: nat, q: nat)
    requires LocksConsistent(g, s) && Numbered(g, s) && p < |s.processes| && q < |s.processes| && p != q
    requires s.processes[p].Active() && forall e :: e in s.processes[p].added ==> Belongs(s.processes[p], e)
    ensures NumberedProcess(g, s.log + s.processes[p].added, s.sequence, s.processes[q])
  {
    var mine, theirs := s.processes[p], s.processes[q];
    assert NumberedProcess(g, s.log, s.sequence, theirs) && NumberedPair(s, p, q);
    if theirs.Active() {
      forall e, f | e in s.log + mine.added && f in theirs.added && EventLock(g, e) in RequiredLocks(g, theirs.save)
        ensures e.sequenceNumber < f.sequenceNumber
      {
        if e !in s.log {
          AddedProtected(g, mine, e);
          MutualExclusion(g, s, p, q, EventLock(g, e));
        }
      }
    }
  }

  lemma PairsKept(g: Guarantee, s: State, p: nat)
    requires Enabled(g, s, p) && Numbered(g, s)
    ensures var s' := Step(g, s, p);
      forall i, j :: 0 <= i < |s'.processes| && 0 <= j < |s'.processes| ==> NumberedPair(s', i, j)
  {
    var s' := Step(g, s, p);
    StepOnlyMoves(g, s, p);
    StepDraws(g, s, p);
    forall i, j | 0 <= i < |s'.processes| && 0 <= j < |s'.processes| ensures NumberedPair(s', i, j) {
      assert NumberedPair(s, i, j);
      assert NumberedProcess(g, s.log, s.sequence, s.processes[i])
        && NumberedProcess(g, s.log, s.sequence, s.processes[j]);
    }
  }

  lemma OwnNumbered(g: Guarantee, s: State, p: nat)
    requires Enabled(g, s, p) && Numbered(g, s)
    requires s.processes[p].stage != Opening(|s.processes[p].save.Parts()|)
    requires s.processes[p].stage.Acquiring? ==> s.processes[p].added == []
    ensures NumberedProcess(g, s.log, Step(g, s, p).sequence, Step(g, s, p).processes[p])
  {
    var process, process' := s.processes[p], Step(g, s, p).processes[p];
    StepDraws(g, s, p);
    StepOnlyMoves(g, s, p);
    assert NumberedProcess(g, s.log, s.sequence, process);
    if Step(g, s, p).sequence == s.sequence + 1 {
      var e: StoredEvent :| e.sequenceNumber == s.sequence && process'.added == process.added + [e];
      DrawNumbered(g, s.log, process, e, process');
    }
  }

  lemma CommitKeepsNumbered(g: Guarantee, s: State, p: nat)
    requires Sound(g, s) && Numbered(g, s) && Enabled(g, s, p)
    requires s.processes[p].stage == Opening(|s.processes[p].save.Parts()|)
    ensures Numbered(g, Step(g, s, p))
  {
    var s', process := Step(g, s, p), s.processes[p];
    StepOnlyMoves(g, s, p);
    StepLog(g, s, p);
    PairsKept(g, s, p);
    assert Content(g, s.log, process);
    CommitOrdered(g, s.log, s.sequence, process);
    forall q | 0 <= q < |s'.processes| ensures NumberedProcess(g, s'.log, s'.sequence, s'.processes[q]) {
      if q != p {
        OtherAfterCommit(g, s, p, q);
      } else {
        assert NumberedProcess(g, s.log, s.sequence, process);
      }
    }
  }

  lemma StepKeepsNumbered(g: Guarantee, s: State, p: nat)
    requires Sound(g, s) && Numbered(g, s) && Enabled(g, s, p)
    ensures Numbered(g, Step(g, s, p))
  {
    var s', process := Step(g, s, p), s.processes[p];
    if process.stage == Opening(|process.save.Parts()|) {
      CommitKeepsNumbered(g, s, p);
    } else {
      StepOnlyMoves(g, s, p);
      StepLog(g, s, p);
      PairsKept(g, s, p);
      OwnNumbered(g, s, p);
      StepDraws(g, s, p);
      forall q | 0 <= q < |s'.processes| ensures NumberedProcess(g, s'.log, s'.sequence, s'.processes[q]) {
        assert NumberedProcess(g, s.log, s.sequence, s.processes[q]);
      }
    }
  }

  lemma StartNumbered(g: Guarantee, saves: seq<Save>)
    ensures Numbered(g, Start(saves))
  {
  }

  lemma {:induction false} RunKeepsNumbered(g: Guarantee, s: State, schedule: seq<nat>)
    requires Sound(g, s) && Numbered(g, s)
    ensures Numbered(g, Run(g, s, schedule))
    decreases |schedule|
  {
    if schedule != [] {
      var p := schedule[0];
      if Enabled(g, s, p) {
        StepKeepsSound(g, s, p);
        StepKeepsNumbered(g, s, p);
        RunKeepsNumbered(g, Step(g, s, p), schedule[1..]);
      } else {
        RunKeepsNumbered(g, s, schedule[1..]);
      }
    }
  }
}
