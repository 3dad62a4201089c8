/**
 Saves never deadlock: locks are taken in name order (store/adapters/memory/locks.py), so the
 save that waits for the greatest lock waits for one that can go on.
 */
module SaveProgress {
  import opened Prelude
  import opened Values
  import opened Events
  import opened Conditions
  import opened LockNames
  import opened Saves
  import opened SaveContents
  import opened SaveOrder
  import opened SaveLaws

  predicate Waiting(g: Guarantee, s: State, p: nat)
    requires p < |s.processes|
  {
    var process := s.processes[p];
    process.stage.Acquiring? && process.stage.held < |RequiredLocks(g, process.save)|
    && RequiredLocks(g, process.save)[process.stage.held] in s.locks
  }

  function Wanted(g: Guarantee, s: State, p: nat): string
    requires p < |s.processes| && Waiting(g, s, p)
  {
    RequiredLocks(g, s.processes[p].save)[s.processes[p].stage.held]
  }

  /** An unfinished save that cannot go on waits for a lock. */
  lemma StuckWaits(g: Guarantee, s: State, p: nat)
    requires p < |s.processes| && Content(g, s.log, s.processes[p])
    ensures Enabled(g, s, p) || s.processes[p].Finished() || Waiting(g, s, p)
  {
  }

  /** The save holding what `p` wants wants something greater itself, if it waits. */
  lemma HolderWantsMore(g: Guarantee, s: State, p: nat)
    requires Sound(g, s) && p < |s.processes| && Waiting(g, s, p)
    ensures var q := s.locks[Wanted(g, s, p)];
      q < |s.processes| && !s.processes[q].Finished()
      && (Waiting(g, s, q) ==> StringBelow(Wanted(g, s, p), Wanted(g, s, q)))
  {
    var name := Wanted(g, s, p);
    assert HasHolder(g, s, name);
    var q := s.locks[name];
    var process := s.processes[q];
    if Waiting(g, s, q) {
      assert Content(g, s.log, process);
      RequiredLocksOrdered(g, process.save);
      var held := process.stage.held;
      var i :| 0 <= i < held && RequiredLocks(g, process.save)[..held][i] == name;
    }
  }

  /** The greatest of the names that are there. */
  lemma {:induction false} Greatest(names: seq<Option<string>>) returns (m: nat)
    requires exists p :: 0 <= p < |names| && names[p].Some?
    ensures m < |names| && names[m].Some?
    ensures forall p :: 0 <= p < |names| && names[p].Some? ==> !StringBelow(names[m].value, names[p].value)
  {
    var rest, last := names[..|names| - 1], names[|names| - 1];
    if exists p :: 0 <= p < |rest| && rest[p].Some? {
      m := Greatest(rest);
      if last.Some? && StringBelow(rest[m].value, last.value) {
        forall p | 0 <= p < |rest| && rest[p].Some? ensures !StringBelow(last.value, rest[p].value) {
          if StringBelow(last.value, rest[p].value) {
            StringBelowTransitive(rest[m].value, last.value, rest[p].value);
          }
        }
        StringBelowTotal(last.value, last.value);
        m := |rest|;
      }
    } else {
      m := |rest|;
      assert forall p :: 0 <= p < |rest| ==> rest[p] == names[p];
      StringBelowTotal(last.value, last.value);
    }
  }

  function Wants(g: Guarantee, s: State, n: nat): (r: seq<Option<string>>)
    requires n <= |s.processes|
    ensures |r| == n
    ensures forall p :: 0 <= p < n ==> r[p] == if Waiting(g, s, p) then Some(Wanted(g, s, p)) else None
  {
    if n == 0 then []
    else Wants(g, s, n - 1) + [if Waiting(g, s, n - 1) then Some(Wanted(g, s, n - 1)) else None]
  }

  lemma GreatestWanted(g: Guarantee, s: State, p: nat) returns (m: nat)
    requires p < |s.processes| && Waiting(g, s, p)
    ensures m < |s.processes| && Waiting(g, s, m)
    ensures forall q :: 0 <= q < |s.processes| && Waiting(g, s, q) ==> !StringBelow(Wanted(g, s, m), Wanted(g, s, q))
  {
    var wants := Wants(g, s, |s.processes|);
    assert wants[p].Some?;
    m := Greatest(wants);
    assert wants[m] == Some(Wanted(g, s, m));
    forall q | 0 <= q < |s.processes| && Waiting(g, s, q) ensures !StringBelow(Wanted(g, s, m), Wanted(g, s, q)) {
      assert wants[q] == Some(Wanted(g, s, q));
    }
  }

  /** As long as a save is unfinished, some save can take a step. */
  lemma NeverStuck(g: Guarantee, s: State, p: nat)
    requires Sound(g, s) && p < |s.processes| && !s.processes[p].Finished()
    ensures exists q :: Enabled(g, s, q)
  {
    StuckWaits(g, s, p);
    if !Enabled(g, s, p) {
      var m := GreatestWanted(g, s, p);
      HolderWantsMore(g, s, m);
      var q := s.locks[Wanted(g, s, m)];
      StuckWaits(g, s, q);
      assert Enabled(g, s, q);
    }
  }

  // Every step brings the end nearer.

  /** Steps left for the parts from `next` on: read, check, draw each event and move on; then commit. */
  function Work(parts: seq<Part>, next: nat): nat
    requires next <= |parts|
    decreases |parts| - next
  {
    if next == |parts| then 1 else 3 + |parts[next].events| + Work(parts, next + 1)
  }

  function Remaining(g: Guarantee, p: Process): nat
    requires InRange(g, p)
  {
    var parts := p.save.Parts();
    match p.stage
    case Acquiring(held) => |RequiredLocks(g, p.save)| - held + 1 + Work(parts, 0)
    case Opening(next) => Work(parts, next)
    case Reading(part, _) => 2 + |parts[part].events| + Work(parts, part + 1)
    case Drawing(part, drawn, _) => 1 + |parts[part].events| - drawn + Work(parts, part + 1)
    case _ => 0
  }

  function Total(g: Guarantee, processes: seq<Process>): nat
    requires forall p :: 0 <= p < |processes| ==> InRange(g, processes[p])
  {
    if processes == [] then 0 else Remaining(g, processes[0]) + Total(g, processes[1..])
  }

  lemma {:induction false} TotalUpdate(g: Guarantee, processes: seq<Process>, p: nat, process: Process)
    requires p < |processes| && InRange(g, process)
    requires forall p :: 0 <= p < |processes| ==> InRange(g, processes[p])
    ensures Total(g, processes[p := process])
        == Total(g, processes) - Remaining(g, processes[p]) + Remaining(g, process)
  {
    if p > 0 {
      TotalUpdate(g, processes[1..], p - 1, process);
      assert processes[p := process][1..] == processes[1..][p - 1 := process];
    } else {
      assert processes[p := process][1..] == processes[1..];
    }
  }

  lemma OwnRemaining(g: Guarantee, s: State, p: nat)
    requires Enabled(g, s, p)
    ensures InRange(g, Step(g, s, p).processes[p])
    ensures Remaining(g, Step(g, s, p).processes[p]) < Remaining(g, s.processes[p])
  {
    var process, process' := s.processes[p], Step(g, s, p).processes[p];
    var parts := process.save.Parts();
    assert process'.save == process.save;
    match process.stage
    case Acquiring(held) =>
      assert process'.stage == Opening(0) || process'.stage == Acquiring(held + 1);
    case Opening(next) =>
      if next < |parts| {
        assert process'.stage.Reading? && process'.stage.part == next;
      }
    case Reading(part, _) =>
      assert process'.stage.Rejected?
        || (process'.stage.Drawing? && process'.stage.part == part && process'.stage.drawn == 0);
    case Drawing(part, drawn, last) =>
      assert process'.stage ==
        if drawn < |parts[part].events| then Drawing(part, drawn + 1, last) else Opening(part + 1);
  }

  lemma SoundInRange(g: Guarantee, s: State)
    requires Sound(g, s)
    ensures forall p :: 0 <= p < |s.processes| ==> InRange(g, s.processes[p])
  {
  }

  lemma StepDecreases(g: Guarantee, s: State, p: nat)
    requires Sound(g, s) && Enabled(g, s, p)
    ensures forall q :: 0 <= q < |s.processes| ==> InRange(g, s.processes[q])
    ensures forall q :: 0 <= q < |Step(g, s, p).processes| ==> InRange(g, Step(g, s, p).processes[q])
    ensures Total(g, Step(g, s, p).processes) < Total(g, s.processes)
  {
    var s' := Step(g, s, p);
    SoundInRange(g, s);
    StepOnlyMoves(g, s, p);
    OwnRemaining(g, s, p);
    TotalUpdate(g, s.processes, p, s'.processes[p]);
    assert s'.processes == s.processes[p := s'.processes[p]];
  }

  /** Every step of the schedule is possible when its turn comes. */
  ghost predicate Productive(g: Guarantee, s: State, schedule: seq<nat>)
    decreases |schedule|
  {
    schedule == [] || (Enabled(g, s, schedule[0]) && Productive(g, Step(g, s, schedule[0]), schedule[1..]))
  }

  /** No run is longer than the work its saves bring along. */
  lemma {:induction false} RunsAreBounded(g: Guarantee, s: State, schedule: seq<nat>)
    requires Sound(g, s) && Productive(g, s, schedule)
    ensures forall p :: 0 <= p < |s.processes| ==> InRange(g, s.processes[p])
    ensures |schedule| <= Total(g, s.processes)
    decreases |schedule|
  {
    SoundInRange(g, s);
    if schedule != [] {
      StepKeepsSound(g, s, schedule[0]);
      StepDecreases(g, s, schedule[0]);
      RunsAreBounded(g, Step(g, s, schedule[0]), schedule[1..]);
    }
  }

  ghost predicate AllFinished(s: State) {
    forall p :: 0 <= p < |s.processes| ==> s.processes[p].Finished()
  }

  /**
   From any state an interleaving reaches, the saves go on until all are finished: a run that
   can be continued no further has finished every save, and every run ends.
   */
  lemma EverySaveFinishes(g: Guarantee, saves: seq<Save>, schedule: seq<nat>)
    requires AllValid(saves)
    ensures var s := Run(g, Start(saves), schedule);
      && (AllFinished(s) <==> forall p: nat :: !Enabled(g, s, p))
      && (forall p :: 0 <= p < |s.processes| ==> InRange(g, s.processes[p]))
      && (forall more :: Productive(g, s, more) ==> |more| <= Total(g, s.processes))
  {
    var s := Run(g, Start(saves), schedule);
    Reachable(g, saves, schedule);
    SoundInRange(g, s);
    FinishedOrEnabled(g, s);
    forall more | Productive(g, s, more) ensures |more| <= Total(g, s.processes) {
      RunsAreBounded(g, s, more);
    }
  }

  lemma FinishedOrEnabled(g: Guarantee, s: State)
    requires Sound(g, s)
    ensures AllFinished(s) <==> forall p: nat :: !Enabled(g, s, p)
  {
    if !AllFinished(s) {
      var p :| 0 <= p < |s.processes| && !s.processes[p].Finished();
      NeverStuck(g, s, p);
    } else {
      forall p: nat ensures !Enabled(g, s, p) {
        assert p < |s.processes| ==> s.processes[p].Finished();
      }
    }
  }
}
